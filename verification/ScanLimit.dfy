/**
 The scan limit of XAUTOCLAIM in the lifecycle machine: a run reaches a state in which an entry is stale and no call
 finds it, because the ten pending entries before it have just been delivered again.
 */
module ScanLimit {
  import opened Protocol

  ghost predicate AtRest(s: State, w: nat, d: nat) {
    && w in s.workers && s.workers[w].Idle? && d in s.dispatchers
    && forall x :: x in s.dispatchers ==> s.dispatchers[x].Resting?
  }

  /** `n` entries for submission `id`: those before `i` pending since `t`, those up to `claimed` pending since
      `t0`, the others new. */
  ghost predicate Backlog(s: State, id: SubmissionId, w: nat, n: nat, claimed: nat, i: nat, t0: nat, t: nat) {
    && |s.stream| == n && s.cursor == claimed && i <= claimed <= n
    && forall e :: 0 <= e < n ==>
         && s.stream[e].submission == id
         && s.stream[e].state == if e < i then Pending(w, t) else if e < claimed then Pending(w, t0) else New
  }

  /** Sent once more: the XADD is applied, its reply is lost, and the transaction never commits. */
  lemma SendAgain(c: Config, s: State, w: nat, d: nat, ev: nat) returns (ls: seq<Label>, s': State)
    requires AtRest(s, w, d) && Ready(s, ev, s.now) && s.outbox[ev].submission in s.rows
    ensures Exec(c, s, ls) == Some(s') && s' == s.(stream := s'.stream)
    ensures |s'.stream| == |s.stream| + 1 && s'.stream[..|s.stream|] == s.stream
    ensures s'.stream[|s.stream|] == Entry(s.outbox[ev].submission, s.rows[s.outbox[ev].submission].participant, New)
  {
    var id := s.outbox[ev].submission;
    var s1 := WithDispatcher(s, d, Picked(ev, s.now));
    assert Apply(c, s, Pick(d, ev, s.now)) == Some(s1);
    var s2 := WithDispatcher(s1.(stream := s1.stream + [Entry(id, s.rows[id].participant, New)]), d, Refused(ev, s.now));
    assert Apply(c, s1, Send(d, true, false)) == Some(s2);
    s' := WithDispatcher(s2, d, Resting);
    assert Apply(c, s2, DropDispatch(d)) == Some(s');
    ExecTwo(c, s, Pick(d, ev, s.now), s1, Send(d, true, false), s2);
    ls := [Pick(d, ev, s.now), Send(d, true, false)] + [DropDispatch(d)];
    ExecSnoc(c, s, [Pick(d, ev, s.now), Send(d, true, false)], DropDispatch(d));
    assert s'.dispatchers == s.dispatchers;
  }

  /** Delivered to worker `w`, which lets go of it. */
  lemma DeliverAndDrop(c: Config, s: State, w: nat, l: Label, e: nat) returns (s': State)
    requires w in s.workers && s.workers[w].Idle? && e < |s.stream|
    requires (l == Claim(w) && e == s.cursor) || (l == AutoClaim(w, e) && FirstStale(c, s, e))
    ensures Exec(c, s, [l, Drop(w)]) == Some(s')
    ensures s' == s.(stream := s.stream[e := s.stream[e].(state := Pending(w, s.now))],
                     cursor := if l.Claim? then s.cursor + 1 else s.cursor)
  {
    var m := Apply(c, s, l).value;
    s' := WithWorker(m, w, Idle);
    assert Apply(c, m, Drop(w)) == Some(s');
    ExecTwo(c, s, l, m, Drop(w), s');
    assert s'.workers == s.workers;
  }

  lemma {:induction false} SendMany(c: Config, s: State, id: SubmissionId, w: nat, d: nat, ev: nat, n: nat)
    returns (ls: seq<Label>, s': State)
    requires AtRest(s, w, d) && Ready(s, ev, s.now) && s.outbox[ev].submission == id && id in s.rows
    requires Backlog(s, id, w, 0, 0, 0, s.now, s.now)
    ensures Exec(c, s, ls) == Some(s') && s' == s.(stream := s'.stream) && Backlog(s', id, w, n, 0, 0, s.now, s.now)
  {
    hide Apply;
    if n == 0 {
      ls, s' := [], s;
    } else {
      var a, m := SendMany(c, s, id, w, d, ev, n - 1);
      var b;
      b, s' := SendAgain(c, m, w, d, ev);
      ExecJoin(c, s, a, m, b, s');
      ls := a + b;
    }
  }

  lemma {:induction false} ClaimMany(c: Config, s: State, id: SubmissionId, w: nat, d: nat, n: nat, k: nat)
    returns (ls: seq<Label>, s': State)
    requires AtRest(s, w, d) && k <= n && Backlog(s, id, w, n, 0, 0, s.now, s.now)
    ensures Exec(c, s, ls) == Some(s') && s' == s.(stream := s'.stream, cursor := k)
    ensures Backlog(s', id, w, n, k, 0, s.now, s.now)
  {
    if k == 0 {
      ls, s' := [], s;
    } else {
      var a, m := ClaimMany(c, s, id, w, d, n, k - 1);
      s' := DeliverAndDrop(c, m, w, Claim(w), k - 1);
      ExecJoin(c, s, a, m, [Claim(w), Drop(w)], s');
      ls := a + [Claim(w), Drop(w)];
    }
  }

  lemma {:induction false} AllPendingBefore(stream: seq<Entry>, e: nat)
    requires e <= |stream| && forall f :: 0 <= f < e ==> stream[f].state.Pending?
    ensures PendingBefore(stream, e) == e
  {
    if e > 0 {
      AllPendingBefore(stream, e - 1);
    }
  }

  /** With the whole backlog claimed at `t0` and the first `i` entries again just now, the next stale one is entry `i`,
      as long as the scan gets there. */
  lemma FirstStaleIs(c: Config, s: State, id: SubmissionId, w: nat, n: nat, i: nat, t0: nat)
    requires Backlog(s, id, w, n, n, i, t0, s.now) && c.staleAfter > 0 && t0 + c.staleAfter <= s.now && i < n
    ensures StaleEntry(c, s, i)
    ensures if i < SCAN_LIMIT then FirstStale(c, s, i) else NoStale(c, s)
  {
    AllPendingBefore(s.stream, i);
    forall e: nat | e < n ensures PendingBefore(s.stream, e) == e {
      AllPendingBefore(s.stream, e);
    }
  }

  lemma {:induction false} ReclaimMany(c: Config, s: State, id: SubmissionId, w: nat, d: nat, n: nat, t0: nat, k: nat)
    returns (ls: seq<Label>, s': State)
    requires AtRest(s, w, d) && k < n && k <= SCAN_LIMIT && Backlog(s, id, w, n, n, 0, t0, s.now)
    requires c.staleAfter > 0 && t0 + c.staleAfter <= s.now
    ensures Exec(c, s, ls) == Some(s') && s' == s.(stream := s'.stream) && Backlog(s', id, w, n, n, k, t0, s.now)
  {
    if k == 0 {
      ls, s' := [], s;
    } else {
      var a, m := ReclaimMany(c, s, id, w, d, n, t0, k - 1);
      FirstStaleIs(c, m, id, w, n, k - 1, t0);
      s' := DeliverAndDrop(c, m, w, AutoClaim(w, k - 1), k - 1);
      ExecJoin(c, s, a, m, [AutoClaim(w, k - 1), Drop(w)], s');
      ls := a + [AutoClaim(w, k - 1), Drop(w)];
    }
  }

  /** One row, whose event is sent eleven times because its replies are lost. */
  lemma ElevenSent(c: Config, s0: State, w: nat, d: nat, id: SubmissionId, p: ParticipantId)
    returns (ls: seq<Label>, s: State)
    requires c.Valid() && IsInit(s0) && w in s0.workers && d in s0.dispatchers
    ensures Exec(c, s0, ls) == Some(s) && AtRest(s, w, d) && Backlog(s, id, w, SCAN_LIMIT + 1, 0, 0, s.now, s.now)
    ensures s.now == s0.now && s.rows == map[id := NewRow(p)]
  {
    assert Active(s0.rows) == {} && QueuedOf(s0.rows, p) == {};
    var s1 := WithCreated(s0, id, p, 0, s0.now);
    assert Apply(c, s0, Create(id, p, 0, s0.now)) == Some(s1);
    ExecOne(c, s0, Create(id, p, 0, s0.now));
    var a;
    a, s := SendMany(c, s1, id, w, d, 0, SCAN_LIMIT + 1);
    ExecJoin(c, s0, [Create(id, p, 0, s0.now)], s1, a, s);
    ls := [Create(id, p, 0, s0.now)] + a;
  }

  /** The same row, all its entries claimed and let go, and the clock moved to when they become stale. */
  lemma ElevenStale(c: Config, s0: State, w: nat, d: nat, id: SubmissionId, p: ParticipantId)
    returns (ls: seq<Label>, s: State, t0: nat)
    requires c.Valid() && IsInit(s0) && w in s0.workers && d in s0.dispatchers
    ensures Exec(c, s0, ls) == Some(s) && AtRest(s, w, d) && s.rows == map[id := NewRow(p)]
    ensures Backlog(s, id, w, SCAN_LIMIT + 1, SCAN_LIMIT + 1, 0, t0, s.now) && t0 + c.staleAfter == s.now
  {
    hide Apply;
    var n := SCAN_LIMIT + 1;
    var a, s1 := ElevenSent(c, s0, w, d, id, p);
    var b, s2 := ClaimMany(c, s1, id, w, d, n, n);
    t0 := s2.now;
    s := s2.(now := s2.now + c.staleAfter);
    Waited(c, s2, c.staleAfter);
    ExecJoin(c, s0, a, s1, b, s2);
    ExecJoin(c, s0, a + b, s2, [Tick(c.staleAfter)], s);
    ls := a + b + [Tick(c.staleAfter)];
  }

  lemma Waited(c: Config, s: State, delta: nat)
    ensures Exec(c, s, [Tick(delta)]) == Some(s.(now := s.now + delta))
  {
    ExecOne(c, s, Tick(delta));
  }

  lemma NoneClaimable(c: Config, s: State)
    requires NoStale(c, s)
    ensures forall x, e :: Apply(c, s, AutoClaim(x, e)).None?
  {
  }

  /** A stale entry that no XAUTOCLAIM finds is reachable, and the row it is for is still queued. */
  lemma StaleIsHidden(c: Config, s0: State, w: nat, d: nat, id: SubmissionId, p: ParticipantId)
    returns (ls: seq<Label>, s: State)
    requires c.Valid() && IsInit(s0) && w in s0.workers && d in s0.dispatchers
    ensures Exec(c, s0, ls) == Some(s) && StaleEntry(c, s, SCAN_LIMIT)
    ensures forall x, e :: Apply(c, s, AutoClaim(x, e)).None?
    ensures s.stream[SCAN_LIMIT].submission == id && s.rows == map[id := NewRow(p)]
  {
    hide Apply;
    var n := SCAN_LIMIT + 1;
    var a, m, t0 := ElevenStale(c, s0, w, d, id, p);
    var b;
    b, s := ReclaimMany(c, m, id, w, d, n, t0, SCAN_LIMIT);
    FirstStaleIs(c, s, id, w, n, SCAN_LIMIT, t0);
    NoneClaimable(c, s);
    ExecJoin(c, s0, a, m, b, s);
    ls := a + b;
  }
}
