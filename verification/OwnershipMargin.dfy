/**
 The latency margin of single ownership is sharp: without it, recovery can re-queue a row whose worker is still live.
 */
module OwnershipMargin {
  import opened Protocol
  import opened Ownership

  /** One more step of a timely run. */
  lemma Extend(c: Config, lat: Latency, s0: State, ls: seq<Label>, s: State, l: Label, s': State)
    requires TimelyRun(c, lat, s0, ls) && Exec(c, s0, ls) == Some(s)
    requires Apply(c, s, l) == Some(s') && Timely(c, lat, s')
    ensures TimelyRun(c, lat, s0, ls + [l]) && Exec(c, s0, ls + [l]) == Some(s')
  {
    ExecSnoc(c, s0, ls, l);
    forall k | 0 <= k <= |ls| + 1
      ensures Exec(c, s0, (ls + [l])[..k]).Some? && Timely(c, lat, Exec(c, s0, (ls + [l])[..k]).value)
    {
      if k <= |ls| {
        assert (ls + [l])[..k] == ls[..k];
      } else {
        assert (ls + [l])[..k] == ls + [l];
      }
    }
  }

  predicate NobodyAttempts(s: State) { forall w :: w in s.workers ==> !s.workers[w].Attempting() }

  /** Create a row and put its entry into the stream, at the instant `s0.now`. */
  lemma Offer(c: Config, lat: Latency, s0: State, id: SubmissionId, p: ParticipantId)
    returns (ls: seq<Label>, s: State)
    requires c.Valid() && IsInit(s0) && 0 in s0.workers && 0 in s0.dispatchers
    ensures TimelyRun(c, lat, s0, ls) && Exec(c, s0, ls) == Some(s)
    ensures s.rows == map[id := NewRow(p)] && s.outbox.Keys == {0} && s.now == s0.now
    ensures s.stream == [Entry(id, p, New)] && s.cursor == 0 && s.workers == s0.workers
  {
    assert Active(s0.rows) == {} && QueuedOf(s0.rows, p) == {};
    var t := s0.now;
    assert s0 == s0.(rows := map[]);
    assert TimelyRun(c, lat, s0, []);
    var s1 := WithCreated(s0, id, p, 0, t);
    assert Apply(c, s0, Create(id, p, 0, t)) == Some(s1);
    Extend(c, lat, s0, [], s0, Create(id, p, 0, t), s1);
    var s2 := WithDispatcher(s1, 0, Picked(0, t));
    assert Apply(c, s1, Pick(0, 0, t)) == Some(s2);
    ls := [] + [Create(id, p, 0, t)];
    Extend(c, lat, s0, ls, s1, Pick(0, 0, t), s2);
    ls := ls + [Pick(0, 0, t)];
    s := Post(c, lat, s0, ls, s2, id, p);
    ls := ls + [Send(0, true, true)] + [MarkDelivered(0)];
  }

  lemma Post(c: Config, lat: Latency, s0: State, ls: seq<Label>, s: State, id: SubmissionId, p: ParticipantId)
    returns (s': State)
    requires TimelyRun(c, lat, s0, ls) && Exec(c, s0, ls) == Some(s) && NobodyAttempts(s)
    requires s.rows == map[id := NewRow(p)] && s.outbox.Keys == {0} && s.outbox[0].submission == id
    requires 0 in s.dispatchers && s.dispatchers[0].Picked? && s.dispatchers[0].event == 0 && s.stream == []
    ensures TimelyRun(c, lat, s0, ls + [Send(0, true, true)] + [MarkDelivered(0)])
    ensures Exec(c, s0, ls + [Send(0, true, true)] + [MarkDelivered(0)]) == Some(s')
    ensures s' == s.(stream := [Entry(id, p, New)], outbox := s'.outbox, dispatchers := s'.dispatchers)
    ensures s'.outbox.Keys == {0}
  {
    var m := Apply(c, s, Send(0, true, true)).value;
    Extend(c, lat, s0, ls, s, Send(0, true, true), m);
    s' := Apply(c, m, MarkDelivered(0)).value;
    Extend(c, lat, s0, ls + [Send(0, true, true)], m, MarkDelivered(0), s');
  }

  /** The worker claims, and uses up its latency before the start. */
  lemma ClaimAndWait(c: Config, lat: Latency, s0: State, ls: seq<Label>, s: State, id: SubmissionId, p: ParticipantId)
    returns (ls': seq<Label>, s': State)
    requires TimelyRun(c, lat, s0, ls) && Exec(c, s0, ls) == Some(s) && NobodyAttempts(s)
    requires s.stream == [Entry(id, p, New)] && s.cursor == 0 && 0 in s.workers && s.workers[0].Idle?
    ensures TimelyRun(c, lat, s0, ls') && Exec(c, s0, ls') == Some(s')
    ensures s' == s.(now := s.now + lat.claimToStart, stream := s'.stream, cursor := 1,
                     workers := s.workers[0 := Claimed(0, s.now)])
    ensures |s'.stream| == 1 && s'.stream[0].submission == id
  {
    var m := WithWorker(WithEntry(s, 0, Pending(0, s.now)), 0, Claimed(0, s.now)).(cursor := 1);
    assert Apply(c, s, Claim(0)) == Some(m);
    Extend(c, lat, s0, ls, s, Claim(0), m);
    s' := m.(now := s.now + lat.claimToStart);
    Extend(c, lat, s0, ls + [Claim(0)], m, Tick(lat.claimToStart), s');
    ls' := ls + [Claim(0)] + [Tick(lat.claimToStart)];
  }

  /** It commits the start late, and runs past the hard timeout. */
  lemma StartAndWait(c: Config, lat: Latency, s0: State, ls: seq<Label>, s: State, id: SubmissionId, p: ParticipantId, t: nat)
    returns (ls': seq<Label>, s': State)
    requires c.Valid() && TimelyRun(c, lat, s0, ls) && Exec(c, s0, ls) == Some(s)
    requires 0 in s.workers && s.workers[0] == Claimed(0, t) && t <= s.now
    requires forall w :: w in s.workers && w != 0 ==> !s.workers[w].Attempting()
    requires s.rows == map[id := NewRow(p)] && |s.stream| == 1 && s.stream[0].submission == id
    ensures TimelyRun(c, lat, s0, ls') && Exec(c, s0, ls') == Some(s')
    ensures s' == s.(now := s.now + (c.hardTimeout + lat.write), rows := map[id := StartedRow(NewRow(p), t)],
                     workers := s.workers[0 := Started(0, t, t, s.now)])
  {
    var m := StartsFirst(c, s, id, p, t);
    assert m.workers[0].committedAt == s.now;
    Extend(c, lat, s0, ls, s, TryStart(0, t), m);
    s' := m.(now := s.now + (c.hardTimeout + lat.write));
    Extend(c, lat, s0, ls + [TryStart(0, t)], m, Tick(c.hardTimeout + lat.write), s');
    ls' := ls + [TryStart(0, t)] + [Tick(c.hardTimeout + lat.write)];
  }

  lemma StartsFirst(c: Config, s: State, id: SubmissionId, p: ParticipantId, t: nat) returns (m: State)
    requires c.Valid() && 0 in s.workers && s.workers[0] == Claimed(0, t) && t <= s.now
    requires s.rows == map[id := NewRow(p)] && |s.stream| == 1 && s.stream[0].submission == id
    ensures m == s.(rows := map[id := StartedRow(NewRow(p), t)], workers := s.workers[0 := Started(0, t, t, s.now)])
    ensures Apply(c, s, TryStart(0, t)) == Some(m)
  {
    assert RunningOf(s.rows, p) == {};
    m := WithStarted(s, 0, id, 0, t, t);
    assert m.rows == map[id := StartedRow(NewRow(p), t)];
  }

  /** Latencies that use up StaleAfter - HardTimeout let a timely run reach a state in which recovery takes the row away
      from a live attempt. */
  lemma MarginIsSharp(c: Config, lat: Latency, s0: State, id: SubmissionId, p: ParticipantId)
    returns (ls: seq<Label>, s: State, l: Label)
    requires c.Valid() && !WithinMargin(c, lat) && IsInit(s0) && 0 in s0.workers && 0 in s0.dispatchers
    ensures TimelyRun(c, lat, s0, ls) && Exec(c, s0, ls) == Some(s)
    ensures l.Recover? && Apply(c, s, l).Some?
    ensures 0 in s.workers && s.workers[0].Started? && s.workers[0].entry < |s.stream|
    ensures s.stream[s.workers[0].entry].submission == l.id
  {
    hide Apply;
    var a, m := Offer(c, lat, s0, id, p);
    var b, m' := ClaimAndWait(c, lat, s0, a, m, id, p);
    ls, s := StartAndWait(c, lat, s0, b, m', id, p, m.now);
    l := Recover(id, 1, m.now, s.now);
    RecoversNow(c, s, id, 1, m.now);
  }

  lemma RecoversNow(c: Config, s: State, id: SubmissionId, ev: nat, before: nat)
    requires StaleRow(s, id, before) && before + c.staleAfter <= s.now && ev !in s.outbox
    ensures Apply(c, s, Recover(id, ev, before, s.now)) == Some(WithRecovered(s, id, ev, s.now))
  {
  }
}
