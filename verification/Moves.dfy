/**
 Short explicit runs that the constructions of whole runs are built from.
 */
module Moves {
  import opened Protocol

  /** XAUTOCLAIM always finds one if there is one in its scan. */
  lemma LeastStale(c: Config, s: State) returns (e: nat)
    requires !NoStale(c, s)
    ensures FirstStale(c, s, e)
  {
    var x: nat :| StaleInScan(c, s, x);
    e := 0;
    while !StaleInScan(c, s, e)
      invariant e <= x && forall f :: 0 <= f < e ==> !StaleInScan(c, s, f)
      decreases x - e
    {
      e := e + 1;
    }
  }

  lemma {:induction false} NonePending(stream: seq<Entry>, e: nat)
    requires e <= |stream| && forall f :: 0 <= f < e ==> !stream[f].state.Pending?
    ensures PendingBefore(stream, e) == 0
  {
    if e > 0 {
      NonePending(stream, e - 1);
    }
  }

  /** Dispatch event `k`: it is marked delivered and the stream gains its entry. */
  lemma DispatchOne(c: Config, s: State, d: nat, k: nat) returns (ls: seq<Label>, s': State)
    requires d in s.dispatchers && (forall x :: x in s.dispatchers ==> s.dispatchers[x].Resting?)
    requires Ready(s, k, s.now) && s.outbox[k].submission in s.rows
    ensures Exec(c, s, ls) == Some(s')
    ensures var id := s.outbox[k].submission;
            s' == s.(dispatchers := s'.dispatchers, stream := s.stream + [Entry(id, s.rows[id].participant, New)],
                     outbox := s.outbox[k := s.outbox[k].(delivered := true)])
    ensures s'.dispatchers == s.dispatchers
    ensures ls == [Pick(d, k, s.now), Send(d, true, true), MarkDelivered(d)] && SerialRun(c, s, ls, s')
  {
    var id := s.outbox[k].submission;
    var s2 := WithDispatcher(s, d, Picked(k, s.now));
    assert Apply(c, s, Pick(d, k, s.now)) == Some(s2);
    var s3 := WithDispatcher(s2.(stream := s2.stream + [Entry(id, s.rows[id].participant, New)]), d, Sent(k, s.now));
    assert Apply(c, s2, Send(d, true, true)) == Some(s3);
    s' := WithDispatcher(s3, d, Resting).(outbox := s3.outbox[k := s3.outbox[k].(delivered := true)]);
    assert Apply(c, s3, MarkDelivered(d)) == Some(s');
    SerialOne(c, s, Pick(d, k, s.now), s2);
    SerialSnoc(c, s, [Pick(d, k, s.now)], s2, Send(d, true, true), s3);
    SerialSnoc(c, s, [Pick(d, k, s.now)] + [Send(d, true, true)], s3, MarkDelivered(d), s');
    ls := [Pick(d, k, s.now)] + [Send(d, true, true)] + [MarkDelivered(d)];
    assert s'.dispatchers == s.dispatchers;
  }

  // ----- Runs that a sequence of transactions can make -----

  /** Transactions one after another: each takes its time from the clock, and its event number from the sequence. */
  predicate SerialLabel(s: State, l: Label) {
    match l
    case Create(_, _, ev, t) => ev == |s.outbox| && t == s.now
    case Recover(_, ev, _, t) => ev == |s.outbox| && t == s.now
    case TryStart(_, t) => t == s.now
    case _ => true
  }

  ghost predicate SerialRun(c: Config, s: State, ls: seq<Label>, s': State) {
    Exec(c, s, ls) == Some(s')
    && forall k :: 0 <= k < |ls| && Exec(c, s, ls[..k]).Some? ==> SerialLabel(Exec(c, s, ls[..k]).value, ls[k])
  }

  lemma SerialOne(c: Config, s: State, l: Label, s': State)
    requires Apply(c, s, l) == Some(s') && SerialLabel(s, l)
    ensures SerialRun(c, s, [l], s')
  {
    hide Apply;
    ExecOne(c, s, l);
    assert [l][..0] == [];
  }

  lemma SerialJoin(c: Config, s: State, a: seq<Label>, m: State, b: seq<Label>, s': State)
    requires SerialRun(c, s, a, m) && SerialRun(c, m, b, s')
    ensures SerialRun(c, s, a + b, s')
  {
    hide Apply;
    ExecJoin(c, s, a, m, b, s');
    forall k | 0 <= k < |a + b| && Exec(c, s, (a + b)[..k]).Some?
      ensures SerialLabel(Exec(c, s, (a + b)[..k]).value, (a + b)[k])
    {
      if k < |a| {
        assert (a + b)[..k] == a[..k];
      } else {
        assert (a + b)[..k] == a + b[..k - |a|];
        ExecConcat(c, s, a, b[..k - |a|]);
      }
    }
  }

  lemma SerialSnoc(c: Config, s: State, ls: seq<Label>, m: State, l: Label, s': State)
    requires SerialRun(c, s, ls, m) && Apply(c, m, l) == Some(s') && SerialLabel(m, l)
    ensures SerialRun(c, s, ls + [l], s')
  {
    hide Apply;
    SerialOne(c, m, l, s');
    SerialJoin(c, s, ls, m, [l], s');
  }
}
