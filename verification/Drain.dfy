/**
 Drain: from every reachable state an explicit continuation without failures and without creations ends with all rows
 terminal, all events delivered and no entry new or pending.
 */
module Drain {
  import opened Protocol
  import opened NoLoss
  import opened Moves

  /** Nothing is created, nothing crashes, every XADD is applied and answered, no attempt times out. */
  predicate FailureFree(l: Label) {
    && !l.Create? && !l.Drop? && !l.DropDispatch? && !l.TimeOut?
    && (l.Send? ==> l.added && l.replied)
  }

  predicate AllFailureFree(ls: seq<Label>) { forall i :: 0 <= i < |ls| ==> FailureFree(ls[i]) }

  ghost predicate Drained(s: State) {
    && (forall id :: id in s.rows ==> s.rows[id].status.Terminal())
    && (forall ev :: ev in s.outbox ==> s.outbox[ev].delivered)
    && (forall e :: 0 <= e < |s.stream| ==> !s.stream[e].Live())
  }

  ghost predicate Calm(s: State) {
    && (forall w :: w in s.workers ==> s.workers[w].Idle?)
    && (forall d :: d in s.dispatchers ==> s.dispatchers[d].Resting?)
  }

  ghost function BusyWorkers(s: State): set<nat> { set w | w in s.workers && !s.workers[w].Idle? }
  ghost function BusyDispatchers(s: State): set<nat> { set d | d in s.dispatchers && !s.dispatchers[d].Resting? }
  ghost function Processing(s: State): set<SubmissionId> { set id | id in s.rows && s.rows[id].status.MockProcessing? }
  ghost function Undelivered(s: State): set<nat> { set ev | ev in s.outbox && !s.outbox[ev].delivered }
  ghost function LiveEntries(s: State): set<nat> { set e: nat | e < |s.stream| && s.stream[e].Live() }

  /** A failure-free run from `s` to `s'`. */
  ghost predicate Leads(c: Config, s: State, ls: seq<Label>, s': State) {
    Exec(c, s, ls) == Some(s') && AllFailureFree(ls)
  }

  lemma LeadsJoin(c: Config, s: State, a: seq<Label>, m: State, b: seq<Label>, s': State)
    requires Leads(c, s, a, m) && Leads(c, m, b, s')
    ensures Leads(c, s, a + b, s')
  {
    ExecJoin(c, s, a, m, b, s');
  }

  lemma LeadsFirst(c: Config, s: State, l: Label, m: State, b: seq<Label>, s': State)
    requires Apply(c, s, l) == Some(m) && FailureFree(l) && Leads(c, m, b, s')
    ensures Leads(c, s, [l] + b, s')
  {
    ExecOne(c, s, l);
    LeadsJoin(c, s, [l], m, b, s');
  }

  // ----- Letting every process finish what it holds -----

  lemma SettleDispatcher(c: Config, s: State, d: nat) returns (ls: seq<Label>, s': State)
    requires Inv(s) && d in s.dispatchers
    ensures Leads(c, s, ls, s') && Inv(s')
    ensures s'.dispatchers == s.dispatchers[d := Resting] && s'.workers == s.workers
    decreases match s.dispatchers[d] case Resting => 0 case Picked(_, _) => 2 case _ => 1
  {
    if s.dispatchers[d].Resting? {
      assert s.dispatchers == s.dispatchers[d := Resting];
      ls, s' := [], s;
    } else {
      var l := if s.dispatchers[d].Picked? then Send(d, true, true)
               else if s.dispatchers[d].Sent? then MarkDelivered(d) else MarkFailed(d);
      assert DispatcherOk(s, s.dispatchers[d]);
      var m := Apply(c, s, l).value;
      InvStep(c, s, l, m);
      var rest;
      rest, s' := SettleDispatcher(c, m, d);
      LeadsFirst(c, s, l, m, rest, s');
      ls := [l] + rest;
    }
  }

  lemma {:induction false} SettleDispatchers(c: Config, s: State) returns (ls: seq<Label>, s': State)
    requires Inv(s)
    ensures Leads(c, s, ls, s') && Inv(s')
    ensures s'.workers == s.workers && s'.dispatchers.Keys == s.dispatchers.Keys && BusyDispatchers(s') == {}
    decreases |BusyDispatchers(s)|
  {
    if BusyDispatchers(s) == {} {
      ls, s' := [], s;
    } else {
      var d :| d in BusyDispatchers(s);
      var a, m := SettleDispatcher(c, s, d);
      assert BusyDispatchers(m) == BusyDispatchers(s) - {d};
      var b;
      b, s' := SettleDispatchers(c, m);
      LeadsJoin(c, s, a, m, b, s');
      ls := a + b;
    }
  }

  function Rank(pc: WorkerPc): nat {
    match pc case Idle => 0 case DelWait(_) => 1 case AckWait(_) => 2 case Started(_, _, _, _) => 3 case Claimed(_, _) => 4
  }

  /** The next label of a worker's program. */
  function NextMove(pc: WorkerPc, w: nat, now: nat): Label
    requires !pc.Idle?
  {
    match pc
    case Claimed(_, _) => TryStart(w, now)
    case Started(_, _, _, _) => Finish(w)
    case AckWait(_) => XAck(w)
    case DelWait(_) => XDel(w)
  }

  lemma WorkerMoves(c: Config, s: State, w: nat) returns (l: Label, m: State)
    requires Inv(s) && w in s.workers && !s.workers[w].Idle?
    ensures Apply(c, s, l) == Some(m) && FailureFree(l) && Inv(m)
    ensures w in m.workers && m.workers == s.workers[w := m.workers[w]] && m.dispatchers == s.dispatchers
    ensures Rank(m.workers[w]) < Rank(s.workers[w])
  {
    assert WorkerOk(s, s.workers[w]);
    l := NextMove(s.workers[w], w, s.now);
    m := MoveApplies(c, s, w);
    InvStep(c, s, l, m);
  }

  lemma MoveApplies(c: Config, s: State, w: nat) returns (m: State)
    requires w in s.workers && !s.workers[w].Idle? && s.workers[w].entry < |s.stream|
    requires s.workers[w].Claimed? ==> s.workers[w].claimedAt <= s.now
    ensures Apply(c, s, NextMove(s.workers[w], w, s.now)) == Some(m)
    ensures w in m.workers && m.workers == s.workers[w := m.workers[w]] && m.dispatchers == s.dispatchers
    ensures Rank(m.workers[w]) < Rank(s.workers[w])
  {
    m := Apply(c, s, NextMove(s.workers[w], w, s.now)).value;
  }

  lemma SettleWorker(c: Config, s: State, w: nat) returns (ls: seq<Label>, s': State)
    requires Inv(s) && w in s.workers
    ensures Leads(c, s, ls, s') && Inv(s')
    ensures s'.workers == s.workers[w := Idle] && s'.dispatchers == s.dispatchers
    decreases Rank(s.workers[w])
  {
    if s.workers[w].Idle? {
      assert s.workers == s.workers[w := Idle];
      ls, s' := [], s;
    } else {
      var l, m := WorkerMoves(c, s, w);
      var rest;
      rest, s' := SettleWorker(c, m, w);
      LeadsFirst(c, s, l, m, rest, s');
      ls := [l] + rest;
    }
  }

  lemma {:induction false} SettleWorkers(c: Config, s: State) returns (ls: seq<Label>, s': State)
    requires Inv(s)
    ensures Leads(c, s, ls, s') && Inv(s')
    ensures s'.workers.Keys == s.workers.Keys && s'.dispatchers == s.dispatchers && BusyWorkers(s') == {}
    decreases |BusyWorkers(s)|
  {
    if BusyWorkers(s) == {} {
      ls, s' := [], s;
    } else {
      var w :| w in BusyWorkers(s);
      var a, m := SettleWorker(c, s, w);
      assert BusyWorkers(m) == BusyWorkers(s) - {w};
      var b;
      b, s' := SettleWorkers(c, m);
      LeadsJoin(c, s, a, m, b, s');
      ls := a + b;
    }
  }

  // ----- Recovering what crashed attempts left behind -----

  lemma {:induction false} Above(names: set<nat>) returns (top: nat)
    ensures forall n :: n in names ==> n < top
  {
    if names == {} {
      top := 0;
    } else {
      var n :| n in names;
      var t := Above(names - {n});
      top := if n < t then t else n + 1;
      forall x | x in names ensures x < top {
        assert x == n || x in names - {n};
      }
    }
  }

  lemma Wait(c: Config, s: State, delta: nat) returns (m: State)
    requires Inv(s)
    ensures m == s.(now := s.now + delta) && Apply(c, s, Tick(delta)) == Some(m) && Inv(m)
  {
    m := s.(now := s.now + delta);
    InvStep(c, s, Tick(delta), m);
  }

  /** It rests on every processing row having its start time. */
  lemma RecoverOne(c: Config, s: State, id: SubmissionId) returns (ls: seq<Label>, s': State)
    requires Inv(s) && id in Processing(s)
    ensures Leads(c, s, ls, s') && Inv(s') && Processing(s') == Processing(s) - {id}
    ensures s'.workers == s.workers && s'.dispatchers == s.dispatchers
  {
    var m := Wait(c, s, c.staleAfter);
    var ev := Above(m.outbox.Keys);
    var l := Recover(id, ev, s.now, m.now);
    s' := WithRecovered(m, id, ev, m.now);
    InvStep(c, m, l, s');
    ExecOne(c, m, l);
    LeadsFirst(c, s, Tick(c.staleAfter), m, [l], s');
    ls := [Tick(c.staleAfter)] + [l];
  }

  lemma {:induction false} RecoverAll(c: Config, s: State) returns (ls: seq<Label>, s': State)
    requires Inv(s)
    ensures Leads(c, s, ls, s') && Inv(s') && Processing(s') == {}
    ensures s'.workers == s.workers && s'.dispatchers == s.dispatchers
    decreases |Processing(s)|
  {
    if Processing(s) == {} {
      ls, s' := [], s;
    } else {
      var id :| id in Processing(s);
      var a, m := RecoverOne(c, s, id);
      var b;
      b, s' := RecoverAll(c, m);
      LeadsJoin(c, s, a, m, b, s');
      ls := a + b;
    }
  }

  // ----- Dispatching every event -----

  lemma DeliverOne(c: Config, s: State, d: nat, ev: nat) returns (ls: seq<Label>, s': State)
    requires Inv(s) && Calm(s) && d in s.dispatchers && ev in Undelivered(s)
    ensures Leads(c, s, ls, s') && Inv(s') && Undelivered(s') == Undelivered(s) - {ev}
    ensures s'.rows == s.rows && s'.workers == s.workers && s'.dispatchers == s.dispatchers
  {
    var m := Wait(c, s, s.outbox[ev].availableAt);
    var rest;
    rest, s' := DispatchOne(c, m, d, ev);
    InvRun(c, m, rest);
    LeadsFirst(c, s, Tick(s.outbox[ev].availableAt), m, rest, s');
    ls := [Tick(s.outbox[ev].availableAt)] + rest;
  }

  lemma {:induction false} DeliverAll(c: Config, s: State, d: nat) returns (ls: seq<Label>, s': State)
    requires Inv(s) && Calm(s) && d in s.dispatchers
    ensures Leads(c, s, ls, s') && Inv(s') && Undelivered(s') == {}
    ensures s'.rows == s.rows && s'.workers == s.workers && s'.dispatchers == s.dispatchers
    decreases |Undelivered(s)|
  {
    if Undelivered(s) == {} {
      ls, s' := [], s;
    } else {
      var ev :| ev in Undelivered(s);
      var a, m := DeliverOne(c, s, d, ev);
      var b;
      b, s' := DeliverAll(c, m, d);
      LeadsJoin(c, s, a, m, b, s');
      ls := a + b;
    }
  }

  // ----- Consuming every entry -----

  /** Take the next entry as consumeLoop does: a stale one in the scan, else a new one, else the first pending one once
      all are stale. */
  lemma TakeEntry(c: Config, s: State, w: nat) returns (ls: seq<Label>, s': State, e: nat)
    requires Inv(s) && w in s.workers && s.workers[w].Idle? && LiveEntries(s) != {}
    ensures Leads(c, s, ls, s') && Inv(s') && e in LiveEntries(s) && LiveEntries(s') == LiveEntries(s)
    ensures s'.rows == s.rows && s'.outbox == s.outbox && s'.dispatchers == s.dispatchers
    ensures s'.workers == s.workers[w := Claimed(e, s'.now)]
    ensures |s'.stream| == |s.stream| && s'.stream[e].submission == s.stream[e].submission
    ensures Claim(w) in ls ==> NoStale(c, s)
  {
    if !NoStale(c, s) {
      e := LeastStale(c, s);
      s' := TakeStale(c, s, w, e);
      ExecOne(c, s, AutoClaim(w, e));
      ls := [AutoClaim(w, e)];
    } else if s.cursor < |s.stream| {
      e := s.cursor;
      s' := TakeNew(c, s, w);
      ExecOne(c, s, Claim(w));
      ls := [Claim(w)];
    } else {
      var m := Wait(c, s, c.staleAfter);
      e := Least(LiveEntries(s));
      assert StaleEntry(c, m, e);
      forall f: nat | f < e ensures !s.stream[f].state.Pending? {
        assert f !in LiveEntries(s);
      }
      NonePending(s.stream, e);
      s' := TakeStale(c, m, w, e);
      ExecOne(c, m, AutoClaim(w, e));
      LeadsFirst(c, s, Tick(c.staleAfter), m, [AutoClaim(w, e)], s');
      ls := [Tick(c.staleAfter)] + [AutoClaim(w, e)];
    }
  }

  lemma TakeStale(c: Config, s: State, w: nat, e: nat) returns (s': State)
    requires Inv(s) && w in s.workers && s.workers[w].Idle? && FirstStale(c, s, e)
    ensures Apply(c, s, AutoClaim(w, e)) == Some(s') && Inv(s')
    ensures s' == s.(stream := s'.stream, workers := s.workers[w := Claimed(e, s.now)])
    ensures |s'.stream| == |s.stream| && s'.stream[e].submission == s.stream[e].submission
    ensures e in LiveEntries(s) && LiveEntries(s') == LiveEntries(s)
  {
    s' := Apply(c, s, AutoClaim(w, e)).value;
    InvStep(c, s, AutoClaim(w, e), s');
  }

  lemma TakeNew(c: Config, s: State, w: nat) returns (s': State)
    requires Inv(s) && w in s.workers && s.workers[w].Idle? && s.cursor < |s.stream|
    ensures Apply(c, s, Claim(w)) == Some(s') && Inv(s')
    ensures s' == s.(stream := s'.stream, cursor := s.cursor + 1, workers := s.workers[w := Claimed(s.cursor, s.now)])
    ensures |s'.stream| == |s.stream| && s'.stream[s.cursor].submission == s.stream[s.cursor].submission
    ensures s.cursor in LiveEntries(s) && LiveEntries(s') == LiveEntries(s)
  {
    s' := Apply(c, s, Claim(w)).value;
    InvStep(c, s, Claim(w), s');
  }

  lemma {:induction false} Least(names: set<nat>) returns (low: nat)
    requires names != {}
    ensures low in names && forall n :: n in names ==> low <= n
  {
    var n :| n in names;
    if names == {n} {
      low := n;
    } else {
      var t := Least(names - {n});
      low := if n < t then n else t;
      forall x | x in names ensures low <= x {
        assert x == n || x in names - {n};
      }
    }
  }

  /** With no row processing, the worker that holds `e` never finds its participant busy: the entry is settled and
      acknowledged, and no row is left processing. */
  lemma DecideEntry(c: Config, s: State, w: nat, e: nat) returns (ls: seq<Label>, s': State)
    requires c.Valid() && Inv(s) && w in s.workers && s.workers[w].Claimed? && s.workers[w].entry == e
    requires Processing(s) == {} && e < |s.stream|
    ensures Leads(c, s, ls, s') && Inv(s') && Processing(s') == {}
    ensures s'.workers == s.workers[w := AckWait(e)] && s'.stream == s.stream
    ensures s'.outbox == s.outbox && s'.dispatchers == s.dispatchers
  {
    var id := s.stream[e].submission;
    ExecOne(c, s, TryStart(w, s.now));
    assert RunningOf(s.rows, s.rows[id].participant) <= Processing(s);
    assert WorkerOk(s, s.workers[w]);
    if s.rows[id].status.Queued? {
      var m := WithStarted(s, w, id, e, s.workers[w].claimedAt, s.now);
      assert Apply(c, s, TryStart(w, s.now)) == Some(m);
      s' := FinishStarted(c, m, w, e);
      ExecTwo(c, s, TryStart(w, s.now), m, Finish(w), s');
      ls := [TryStart(w, s.now), Finish(w)];
      assert Processing(s') == {};
    } else {
      s' := WithWorker(s, w, AckWait(e));
      assert Apply(c, s, TryStart(w, s.now)) == Some(s');
      ls := [TryStart(w, s.now)];
    }
    InvRun(c, s, ls);
  }

  lemma FinishStarted(c: Config, s: State, w: nat, e: nat) returns (s': State)
    requires w in s.workers && s.workers[w].Started? && s.workers[w].entry == e && e < |s.stream|
    requires s.stream[e].submission in s.rows && s.rows[s.stream[e].submission].status.MockProcessing?
    ensures Apply(c, s, Finish(w)) == Some(s')
    ensures var id := s.stream[e].submission;
            s' == s.(rows := s.rows[id := FinishedRow(s.rows[id], s.now)], workers := s.workers[w := AckWait(e)])
  {
    s' := Apply(c, s, Finish(w)).value;
  }

  lemma AcknowledgeEntry(c: Config, s: State, w: nat, e: nat) returns (ls: seq<Label>, s': State)
    requires Inv(s) && w in s.workers && s.workers[w] == AckWait(e) && e < |s.stream|
    ensures Leads(c, s, ls, s') && Inv(s') && LiveEntries(s') == LiveEntries(s) - {e}
    ensures s'.workers == s.workers[w := Idle] && s'.rows == s.rows
    ensures s'.outbox == s.outbox && s'.dispatchers == s.dispatchers
  {
    hide Apply;
    s' := AckThenDelete(c, s, w, e);
    ls := [XAck(w), XDel(w)];
    InvRun(c, s, ls);
    OneEntryGone(s, e, s');
  }

  lemma AckThenDelete(c: Config, s: State, w: nat, e: nat) returns (s': State)
    requires w in s.workers && s.workers[w] == AckWait(e) && e < |s.stream|
    ensures Exec(c, s, [XAck(w), XDel(w)]) == Some(s')
    ensures s' == s.(stream := s.stream[e := s.stream[e].(state := Gone)], workers := s.workers[w := Idle])
  {
    var m := WithWorker(if s.stream[e].state.Pending? then WithEntry(s, e, Acked) else s, w, DelWait(e));
    assert Apply(c, s, XAck(w)) == Some(m);
    s' := WithWorker(WithEntry(m, e, Gone), w, Idle);
    assert Apply(c, m, XDel(w)) == Some(s');
    ExecTwo(c, s, XAck(w), m, XDel(w), s');
  }

  lemma OneEntryGone(s: State, e: nat, s': State)
    requires e < |s.stream| && |s'.stream| == |s.stream| && s'.stream[e].state == Gone
    requires forall f :: 0 <= f < |s.stream| && f != e ==> s'.stream[f] == s.stream[f]
    ensures LiveEntries(s') == LiveEntries(s) - {e}
  {
  }

  lemma ConsumeOne(c: Config, s: State, w: nat) returns (ls: seq<Label>, s': State)
    requires c.Valid() && Inv(s) && w in s.workers && s.workers[w].Idle?
    requires Processing(s) == {} && LiveEntries(s) != {}
    ensures Leads(c, s, ls, s') && Inv(s') && Processing(s') == {} && |LiveEntries(s')| < |LiveEntries(s)|
    ensures s'.workers == s.workers && s'.outbox == s.outbox && s'.dispatchers == s.dispatchers
  {
    var a, m1, e := TakeEntry(c, s, w);
    assert Processing(m1) == {};
    var b, m2 := DecideEntry(c, m1, w, e);
    assert LiveEntries(m2) == LiveEntries(m1);
    var d;
    d, s' := AcknowledgeEntry(c, m2, w, e);
    LeadsJoin(c, s, a, m1, b, m2);
    LeadsJoin(c, s, a + b, m2, d, s');
    ls := a + b + d;
    assert Processing(s') == {};
    assert s'.workers == s.workers;
  }

  lemma {:induction false} ConsumeAll(c: Config, s: State, w: nat) returns (ls: seq<Label>, s': State)
    requires c.Valid() && Inv(s) && w in s.workers && s.workers[w].Idle? && Processing(s) == {}
    ensures Leads(c, s, ls, s') && Inv(s') && Processing(s') == {} && LiveEntries(s') == {}
    ensures s'.outbox == s.outbox
    decreases |LiveEntries(s)|
  {
    if LiveEntries(s) == {} {
      ls, s' := [], s;
    } else {
      var a, m := ConsumeOne(c, s, w);
      var b;
      b, s' := ConsumeAll(c, m, w);
      LeadsJoin(c, s, a, m, b, s');
      ls := a + b;
    }
  }

  // ----- The theorem -----

  /** Every row that was terminal is as it was, and every other one is finished with the result of the mock worker. */
  ghost predicate FinishesAll(s: State, s': State) {
    forall id :: id in s.rows ==>
      && id in s'.rows
      && if s.rows[id].status.Terminal() then s'.rows[id] == s.rows[id]
         else s'.rows[id].status == Finished && s'.rows[id].result == Some(MOCK_RESULT)
              && s'.rows[id].participant == s.rows[id].participant
  }

  lemma DrainFinishesAll(c: Config, s: State, ls: seq<Label>, s': State)
    requires Exec(c, s, ls) == Some(s') && Drained(s') && forall i :: 0 <= i < |ls| ==> !ls[i].TimeOut?
    ensures FinishesAll(s, s')
  {
    forall id | id in s.rows
      ensures id in s'.rows
      ensures if s.rows[id].status.Terminal() then s'.rows[id] == s.rows[id]
              else s'.rows[id].status == Finished && s'.rows[id].result == Some(MOCK_RESULT)
                   && s'.rows[id].participant == s.rows[id].participant
    {
      if s.rows[id].status.Terminal() {
        TerminalFrozen(c, s, ls, id);
      } else {
        FinishedUnlessTimedOut(c, s, ls, id);
      }
    }
  }

  /** A drained system has room again: it admits a creation with a new id, from any participant. */
  lemma DrainedAdmits(c: Config, s: State, id: SubmissionId, p: ParticipantId, ev: nat)
    requires c.Valid() && Drained(s) && id !in s.rows && ev !in s.outbox
    ensures Apply(c, s, Create(id, p, ev, s.now)) == Some(WithCreated(s, id, p, ev, s.now))
  {
    assert Active(s.rows) == {} && QueuedOf(s.rows, p) == {};
  }

  lemma EmptyMeansDrained(s: State)
    requires Inv(s) && Processing(s) == {} && Undelivered(s) == {} && LiveEntries(s) == {}
    ensures Drained(s)
  {
    forall ev | ev in s.outbox ensures s.outbox[ev].delivered {
      assert ev !in Undelivered(s);
    }
    forall e | 0 <= e < |s.stream| ensures !s.stream[e].Live() {
      assert e !in LiveEntries(s);
    }
    forall id | id in s.rows ensures s.rows[id].status.Terminal() {
      assert id !in Processing(s);
      assert s.rows[id].status.Queued? ==> Covered(s, id);
    }
  }

  /** Every reachable state can be drained, given one worker and one dispatcher. */
  lemma CanDrain(c: Config, s0: State, run: seq<Label>, s: State, w: nat, d: nat)
    returns (ls: seq<Label>, s': State)
    requires c.Valid() && IsInit(s0) && Exec(c, s0, run) == Some(s)
    requires w in s.workers && d in s.dispatchers
    ensures Exec(c, s, ls) == Some(s') && AllFailureFree(ls) && Drained(s') && FinishesAll(s, s')
  {
    NoSubmissionLost(c, s0, run);
    var a, m1 := SettleDispatchers(c, s);
    var b, m2 := SettleWorkers(c, m1);
    assert Calm(m2) by {
      assert BusyWorkers(m2) == {} && BusyDispatchers(m2) == BusyDispatchers(m1) == {};
      forall x | x in m2.workers ensures m2.workers[x].Idle? { assert x !in BusyWorkers(m2); }
      forall x | x in m2.dispatchers ensures m2.dispatchers[x].Resting? { assert x !in BusyDispatchers(m2); }
    }
    var e, m3 := RecoverAll(c, m2);
    var f, m4 := DeliverAll(c, m3, d);
    assert Processing(m4) == Processing(m3);
    var g;
    g, s' := ConsumeAll(c, m4, w);
    assert Undelivered(s') == Undelivered(m4);
    EmptyMeansDrained(s');
    LeadsJoin(c, s, a, m1, b, m2);
    LeadsJoin(c, s, a + b, m2, e, m3);
    LeadsJoin(c, s, a + b + e, m3, f, m4);
    LeadsJoin(c, s, a + b + e + f, m4, g, s');
    ls := a + b + e + f + g;
    DrainFinishesAll(c, s, ls, s');
  }
}
