/**
 The drain made of the loops themselves: rounds of recoveryLoop, then of outboxLoop, then of consumeLoop, without
 faults, bring the tables and the queue from any state that a run reaches, its processes at rest, to a drained one.
 */
module DrainLoops {
  import opened Protocol
  import NoLoss
  import opened Drain
  import opened Database
  import opened StreamQueue
  import opened Worker
  import opened Loops
  import Moves
  import Quota

  const FINE := Luck(NoFault, false, NoFault, AckFine, 0, 0)

  ghost predicate Rests(s: State) { Calm(s) && NoLoss.Inv(s) && AllSendable(s.rows) }

  ghost predicate Sound(db: Tables, q: Queue, now: nat, ws: map<nat, WorkerPc>, ds: map<nat, DispatchPc>)
    reads db, q
  {
    db.Valid() && q.Valid() && AllWellFormed(q.messages) && Rests(World(db, q, now, ws, ds))
  }

  lemma RestsAfter(c: Config, s: State, ls: seq<Label>, s': State)
    requires Rests(s) && Exec(c, s, ls) == Some(s') && AllSendable(s'.rows)
    requires s'.workers == s.workers && s'.dispatchers == s.dispatchers
    ensures Rests(s')
  {
    NoLoss.InvRun(c, s, ls);
  }

  /** Waiting, and then a run that leaves the processes at rest. */
  lemma AfterWait(c: Config, s: State, delta: nat, ls: seq<Label>, s': State)
    requires Rests(s) && AllSendable(s'.rows)
    requires Exec(c, s.(now := s.now + delta), ls) == Some(s')
    requires s'.workers == s.workers && s'.dispatchers == s.dispatchers
    ensures Exec(c, s, [Tick(delta)] + ls) == Some(s') && Rests(s')
  {
    ExecOne(c, s, Tick(delta));
    ExecJoin(c, s, [Tick(delta)], s.(now := s.now + delta), ls, s');
    RestsAfter(c, s, [Tick(delta)] + ls, s');
  }

  // ----- recoveryLoop -----

  lemma AllStaleLater(c: Config, s: State)
    requires NoLoss.Inv(s)
    ensures StaleNow(c, s.(now := s.now + c.staleAfter)) == Processing(s)
  {
  }

  lemma FewerProcessing(s: State, s': State, ids: seq<SubmissionId>, now: nat)
    requires Requeued(s.rows, s.outbox, s'.rows, s'.outbox, ids, now)
    requires |ids| > 0 && forall i :: 0 <= i < |ids| ==> ids[i] in Processing(s)
    ensures |Processing(s')| < |Processing(s)|
    ensures AllSendable(s.rows) ==> AllSendable(s'.rows)
  {
    assert ids[0] in ids && ids[0] !in Processing(s');
    assert Processing(s') <= Processing(s) - {ids[0]};
    Quota.SubsetSize(Processing(s'), Processing(s) - {ids[0]});
  }

  /** A round of recoveryLoop at an instant when every processing row is stale. */
  method RecoverStale(c: Config, db: Tables, q: Queue, now: nat, ghost s: State) returns (ghost ls: seq<Label>)
    requires c.Valid() && db.Valid() && AllWellFormed(q.messages) && s == World(db, q, now, s.workers, s.dispatchers)
    requires StaleNow(c, s) == Processing(s) != {} && AllSendable(s.rows)
    modifies db
    ensures db.Valid() && AllSendable(db.rows)
    ensures Exec(c, s, ls) == Some(World(db, q, now, s.workers, s.dispatchers)) && NoTimeOut(ls)
    ensures |Processing(World(db, q, now, s.workers, s.dispatchers))| < |Processing(s)|
  {
    var fine: nat -> Fault := _ => NoFault;
    var ids;
    ids, ls := RecoveryRound(c, db, q, now, 100, false, fine, s);
    CommittedAll(ids, fine);
    FewerProcessing(s, World(db, q, now, s.workers, s.dispatchers), ids, now);
  }

  /** A round of recoveryLoop, one stale time later. */
  method RecoverSome(c: Config, db: Tables, q: Queue, now: nat, ghost ws: map<nat, WorkerPc>, ghost ds: map<nat, DispatchPc>)
    returns (later: nat, ghost ls: seq<Label>)
    requires c.Valid() && Sound(db, q, now, ws, ds) && Processing(World(db, q, now, ws, ds)) != {}
    modifies db
    ensures Sound(db, q, later, ws, ds)
    ensures Exec(c, old(World(db, q, now, ws, ds)), ls) == Some(World(db, q, later, ws, ds)) && NoTimeOut(ls)
    ensures |Processing(World(db, q, later, ws, ds))| < |old(Processing(World(db, q, now, ws, ds)))|
  {
    ghost var s := World(db, q, now, ws, ds);
    later := now + c.staleAfter;
    ghost var s1 := World(db, q, later, ws, ds);
    assert s1 == s.(now := s.now + c.staleAfter);
    AllStaleLater(c, s);
    assert Processing(s1) == Processing(s);
    ls := RecoverStale(c, db, q, later, s1);
    AfterWait(c, s, c.staleAfter, ls, World(db, q, later, ws, ds));
    ls := [Tick(c.staleAfter)] + ls;
  }

  method RecoverRows(c: Config, db: Tables, q: Queue, now: nat, ghost ws: map<nat, WorkerPc>, ghost ds: map<nat, DispatchPc>)
    returns (later: nat, ghost ls: seq<Label>)
    requires c.Valid() && Sound(db, q, now, ws, ds)
    modifies db
    ensures Sound(db, q, later, ws, ds)
    ensures Exec(c, old(World(db, q, now, ws, ds)), ls) == Some(World(db, q, later, ws, ds)) && NoTimeOut(ls)
    ensures Processing(World(db, q, later, ws, ds)) == {}
  {
    later, ls := now, [];
    ghost var s := World(db, q, now, ws, ds);
    while exists id :: id in db.rows && db.rows[id].status.MockProcessing?
      invariant Sound(db, q, later, ws, ds)
      invariant Exec(c, s, ls) == Some(World(db, q, later, ws, ds)) && NoTimeOut(ls)
      decreases |Processing(World(db, q, later, ws, ds))|
    {
      ghost var m := World(db, q, later, ws, ds);
      assert Processing(m) != {} by {
        var id :| id in db.rows && db.rows[id].status.MockProcessing?;
        assert id in Processing(m);
      }
      ghost var rest;
      later, rest := RecoverSome(c, db, q, later, ws, ds);
      ExecJoin(c, s, ls, m, rest, World(db, q, later, ws, ds));
      ls := ls + rest;
    }
  }

  // ----- outboxLoop -----

  /** An instant at which no event is backed off. */
  method Horizon(outbox: Outbox, now: nat) returns (t: nat)
    ensures now <= t && forall ev :: ev in outbox ==> outbox[ev].availableAt <= t
  {
    t := now;
    var rest := outbox.Keys;
    while rest != {}
      invariant now <= t && rest <= outbox.Keys
      invariant forall ev :: ev in outbox && ev !in rest ==> outbox[ev].availableAt <= t
      decreases |rest|
    {
      var ev :| ev in rest;
      if outbox[ev].availableAt > t { t := outbox[ev].availableAt; }
      rest := rest - {ev};
    }
  }

  lemma {:induction false} TicksDoNotTimeOut(
    rows: Rows, d: nat, now: nat, picks: seq<Pickup>, commands: nat -> Command, faults: nat -> Fault)
    ensures NoTimeOut(TickLabels(rows, d, now, picks, commands, faults))
    decreases |picks|
  {
    if picks != [] {
      TicksDoNotTimeOut(rows, d, now, picks[..|picks| - 1], commands, faults);
    }
  }

  /** A tick of outboxLoop at an instant when some event is ready and none is held. */
  method DeliverReady(c: Config, db: Tables, q: Queue, d: nat, now: nat, ghost ev: nat, ghost s: State)
    returns (ghost ls: seq<Label>)
    requires db.Valid() && q.Valid() && AllWellFormed(q.messages) && s == World(db, q, now, s.workers, s.dispatchers)
    requires d in s.dispatchers && (forall x :: x in s.dispatchers ==> s.dispatchers[x].Resting?)
    requires AllSendable(db.rows) && db.ReadyEvent(ev, now)
    modifies db`outbox, q`messages
    ensures db.Valid() && q.Valid() && AllWellFormed(q.messages)
    ensures Exec(c, s, ls) == Some(World(db, q, now, s.workers, s.dispatchers)) && NoTimeOut(ls)
    ensures |Waiting(db.outbox)| < |Waiting(s.outbox)|
  {
    hide Apply;
    var n;
    ghost var picks;
    var answered: nat -> Command := _ => Answered;
    var fine: nat -> Fault := _ => NoFault;
    n, ls, picks := OutboxTick(c, db, q, d, {}, now, answered, fine, s);
    ghost var still := db.ReadyEvent(ev, now);
    assert n == 0 ==> still;
    TicksDoNotTimeOut(db.rows, d, now, picks, answered, fine);
  }

  /** A tick of outboxLoop, once no event is backed off. */
  method DeliverSome(c: Config, db: Tables, q: Queue, d: nat, now: nat,
                     ghost ws: map<nat, WorkerPc>, ghost ds: map<nat, DispatchPc>)
    returns (later: nat, ghost ls: seq<Label>)
    requires Sound(db, q, now, ws, ds) && d in ds && Undelivered(World(db, q, now, ws, ds)) != {}
    modifies db`outbox, q`messages
    ensures Sound(db, q, later, ws, ds)
    ensures Exec(c, old(World(db, q, now, ws, ds)), ls) == Some(World(db, q, later, ws, ds)) && NoTimeOut(ls)
    ensures |Undelivered(World(db, q, later, ws, ds))| < old(|Undelivered(World(db, q, now, ws, ds))|)
  {
    hide Apply;
    ghost var s := World(db, q, now, ws, ds);
    later := Horizon(db.outbox, now);
    ghost var s1 := World(db, q, later, ws, ds);
    assert s1 == s.(now := s.now + (later - now));
    ghost var ev :| ev in Undelivered(s);
    assert Undelivered(s) == Waiting(db.outbox);
    ls := DeliverReady(c, db, q, d, later, ev, s1);
    ghost var s' := World(db, q, later, ws, ds);
    assert Undelivered(s') == Waiting(db.outbox);
    AfterWait(c, s, later - now, ls, s');
    ls := [Tick(later - now)] + ls;
  }

  method DeliverEvents(c: Config, db: Tables, q: Queue, d: nat, now: nat,
                       ghost ws: map<nat, WorkerPc>, ghost ds: map<nat, DispatchPc>)
    returns (later: nat, ghost ls: seq<Label>)
    requires Sound(db, q, now, ws, ds) && d in ds
    modifies db`outbox, q`messages
    ensures Sound(db, q, later, ws, ds)
    ensures Exec(c, old(World(db, q, now, ws, ds)), ls) == Some(World(db, q, later, ws, ds)) && NoTimeOut(ls)
    ensures Undelivered(World(db, q, later, ws, ds)) == {}
  {
    later, ls := now, [];
    ghost var s := World(db, q, now, ws, ds);
    while exists ev :: ev in db.outbox && !db.outbox[ev].delivered
      invariant Sound(db, q, later, ws, ds)
      invariant Exec(c, s, ls) == Some(World(db, q, later, ws, ds)) && NoTimeOut(ls)
      decreases |Undelivered(World(db, q, later, ws, ds))|
    {
      ghost var m := World(db, q, later, ws, ds);
      assert Undelivered(m) != {} by {
        var ev :| ev in db.outbox && !db.outbox[ev].delivered;
        assert ev in Undelivered(m);
      }
      ghost var rest;
      later, rest := DeliverSome(c, db, q, d, later, ws, ds);
      ExecJoin(c, s, ls, m, rest, World(db, q, later, ws, ds));
      ls := ls + rest;
    }
  }

  // ----- consumeLoop -----

  /** Some entry is next once every pending one is stale. */
  lemma SomethingNext(c: Config, s: State)
    requires NoLoss.Inv(s) && LiveEntries(s) != {}
    ensures var m := s.(now := s.now + c.staleAfter); !NoStale(c, m) || m.cursor < |m.stream|
  {
    var m := s.(now := s.now + c.staleAfter);
    if m.cursor == |m.stream| {
      var e := Least(LiveEntries(s));
      forall f: nat | f < e ensures !s.stream[f].state.Pending? {
        assert f !in LiveEntries(s);
      }
      Moves.NonePending(s.stream, e);
      assert StaleInScan(c, m, e);
    }
  }

  /** One entry less, no row processing, and nothing else touched. */
  lemma AfterConsuming(c: Config, s: State, e: nat, id: SubmissionId, now: nat, ls: seq<Label>, s': State)
    requires c.Valid() && Rests(s) && Processing(s) == {} && NextEntry(c, s.(now := s.now + c.staleAfter), e)
    requires Exec(c, s.(now := s.now + c.staleAfter), ls) == Some(s')
    requires s'.rows == RowsAfter(c, s.rows, id, now, FINE) && s'.outbox == s.outbox
    requires s'.workers == s.workers && s'.dispatchers == s.dispatchers
    requires |s'.stream| == |s.stream| && s'.stream == s.stream[e := s.stream[e].(state := Gone)]
    ensures Exec(c, s, [Tick(c.staleAfter)] + ls) == Some(s')
    ensures Rests(s') && Processing(s') == {} && |LiveEntries(s')| < |LiveEntries(s)|
  {
    AfterWait(c, s, c.staleAfter, ls, s');
    assert e in LiveEntries(s);
    OneEntryGone(s, e, s');
    forall x | x in s'.rows ensures x !in Processing(s') {
      assert x !in Processing(s);
    }
  }

  lemma NeverBusy(c: Config, s: State, id: SubmissionId, messages: seq<Message>, e: nat, w: nat, now: nat)
    requires c.Valid() && Processing(s) == {} && e < |messages|
    ensures Acknowledges(c, s.rows, id, FINE)
    ensures AfterAck(Taken(messages, e, w, now), e, AckFine) == messages[e := messages[e].(state := Gone)]
  {
    if id in s.rows {
      assert RunningOf(s.rows, s.rows[id].participant) <= Processing(s);
    }
  }

  /** A round of consumeLoop, one stale time later. */
  method ConsumeNext(c: Config, db: Tables, q: Queue, w: nat, now: nat,
                     ghost ws: map<nat, WorkerPc>, ghost ds: map<nat, DispatchPc>)
    returns (later: nat, ghost ls: seq<Label>)
    requires c.Valid() && Sound(db, q, now, ws, ds) && w in ws
    requires Processing(World(db, q, now, ws, ds)) == {} && LiveEntries(World(db, q, now, ws, ds)) != {}
    modifies db`rows, q
    ensures Sound(db, q, later, ws, ds) && Processing(World(db, q, later, ws, ds)) == {}
    ensures Exec(c, old(World(db, q, now, ws, ds)), ls) == Some(World(db, q, later, ws, ds)) && NoTimeOut(ls)
    ensures |LiveEntries(World(db, q, later, ws, ds))| < old(|LiveEntries(World(db, q, now, ws, ds))|)
  {
    ghost var s := World(db, q, now, ws, ds);
    ghost var messages := q.messages;
    later := now + c.staleAfter;
    ghost var s1 := World(db, q, later, ws, ds);
    assert s1 == s.(now := s.now + c.staleAfter);
    SomethingNext(c, s);
    var job;
    job, later, ls := ConsumeRound(c, db, q, w, later, Answered, Answered, FINE, s1);
    ghost var id := SubmissionId(job.submission);
    NeverBusy(c, s, id, messages, job.entry, w, s1.now);
    StreamUpdate(messages, job.entry, Gone);
    ghost var s' := World(db, q, later, ws, ds);
    assert s'.stream == s.stream[job.entry := s.stream[job.entry].(state := Gone)];
    assert s'.rows == RowsAfter(c, s.rows, id, s1.now, FINE);
    AfterConsuming(c, s, job.entry, id, s1.now, ls, s');
    ls := [Tick(c.staleAfter)] + ls;
  }

  method ConsumeEntries(c: Config, db: Tables, q: Queue, w: nat, now: nat,
                        ghost ws: map<nat, WorkerPc>, ghost ds: map<nat, DispatchPc>)
    returns (later: nat, ghost ls: seq<Label>)
    requires c.Valid() && Sound(db, q, now, ws, ds) && w in ws && Processing(World(db, q, now, ws, ds)) == {}
    modifies db`rows, q
    ensures Sound(db, q, later, ws, ds) && Processing(World(db, q, later, ws, ds)) == {}
    ensures Exec(c, old(World(db, q, now, ws, ds)), ls) == Some(World(db, q, later, ws, ds)) && NoTimeOut(ls)
    ensures LiveEntries(World(db, q, later, ws, ds)) == {}
  {
    later, ls := now, [];
    ghost var s := World(db, q, now, ws, ds);
    while exists e :: 0 <= e < |q.messages| && EntryOf(q.messages[e]).Live()
      invariant Sound(db, q, later, ws, ds) && Processing(World(db, q, later, ws, ds)) == {}
      invariant Exec(c, s, ls) == Some(World(db, q, later, ws, ds)) && NoTimeOut(ls)
      decreases |LiveEntries(World(db, q, later, ws, ds))|
    {
      ghost var m := World(db, q, later, ws, ds);
      assert LiveEntries(m) != {} by {
        var e: nat :| e < |q.messages| && EntryOf(q.messages[e]).Live();
        assert e in LiveEntries(m);
      }
      ghost var rest;
      later, rest := ConsumeNext(c, db, q, w, later, ws, ds);
      ExecJoin(c, s, ls, m, rest, World(db, q, later, ws, ds));
      ls := ls + rest;
    }
  }

  // ----- The drain -----

  /** The three loops in turn drain the tables and the queue: the methods terminate, and at their end every row is
      terminal, every event delivered, and no message new or pending. */
  method DrainByLoops(c: Config, db: Tables, q: Queue, w: nat, d: nat, now: nat,
                      ghost ws: map<nat, WorkerPc>, ghost ds: map<nat, DispatchPc>)
    returns (later: nat, ghost ls: seq<Label>)
    requires c.Valid() && Sound(db, q, now, ws, ds) && w in ws && d in ds
    modifies db, q
    ensures Sound(db, q, later, ws, ds) && Drained(World(db, q, later, ws, ds))
    ensures FinishesAll(old(World(db, q, now, ws, ds)), World(db, q, later, ws, ds))
    ensures Exec(c, old(World(db, q, now, ws, ds)), ls) == Some(World(db, q, later, ws, ds)) && NoTimeOut(ls)
  {
    ghost var s := World(db, q, now, ws, ds);
    later, ls := RecoverRows(c, db, q, now, ws, ds);
    ghost var m1 := World(db, q, later, ws, ds);
    ghost var rest;
    later, rest := DeliverEvents(c, db, q, d, later, ws, ds);
    ghost var m2 := World(db, q, later, ws, ds);
    assert Processing(m2) == {};
    ExecJoin(c, s, ls, m1, rest, m2);
    ls := ls + rest;
    later, rest := ConsumeEntries(c, db, q, w, later, ws, ds);
    ghost var s' := World(db, q, later, ws, ds);
    assert Undelivered(s') == Undelivered(m2);
    ExecJoin(c, s, ls, m2, rest, s');
    ls := ls + rest;
    EmptyMeansDrained(s');
    DrainFinishesAll(c, s, ls, s');
  }

  // ----- Getting there -----

  lemma {:induction false} DropWorkers(c: Config, s: State) returns (ls: seq<Label>, s': State)
    ensures Exec(c, s, ls) == Some(s') && s' == s.(workers := s'.workers)
    ensures s'.workers.Keys == s.workers.Keys && BusyWorkers(s') == {}
    decreases |BusyWorkers(s)|
  {
    if BusyWorkers(s) == {} {
      ls, s' := [], s;
    } else {
      var w :| w in BusyWorkers(s);
      var m := WithWorker(s, w, Idle);
      ExecOne(c, s, Drop(w));
      assert BusyWorkers(m) == BusyWorkers(s) - {w};
      var rest;
      rest, s' := DropWorkers(c, m);
      ExecJoin(c, s, [Drop(w)], m, rest, s');
      ls := [Drop(w)] + rest;
    }
  }

  lemma {:induction false} DropDispatchers(c: Config, s: State) returns (ls: seq<Label>, s': State)
    ensures Exec(c, s, ls) == Some(s') && s' == s.(dispatchers := s'.dispatchers)
    ensures s'.dispatchers.Keys == s.dispatchers.Keys && BusyDispatchers(s') == {}
    decreases |BusyDispatchers(s)|
  {
    if BusyDispatchers(s) == {} {
      ls, s' := [], s;
    } else {
      var d :| d in BusyDispatchers(s);
      var m := WithDispatcher(s, d, Resting);
      ExecOne(c, s, DropDispatch(d));
      assert BusyDispatchers(m) == BusyDispatchers(s) - {d};
      var rest;
      rest, s' := DropDispatchers(c, m);
      ExecJoin(c, s, [DropDispatch(d)], m, rest, s');
      ls := [DropDispatch(d)] + rest;
    }
  }

  /** What DrainByLoops asks for holds in every reachable state after a restart of the worker processes, which loses
      what they held and nothing in the stores. */
  lemma RestartRests(c: Config, s0: State, run: seq<Label>, s: State) returns (ls: seq<Label>, s': State)
    requires IsInit(s0) && Exec(c, s0, run) == Some(s) && AllSendable(s.rows)
    ensures Exec(c, s, ls) == Some(s') && Rests(s')
    ensures s' == s.(workers := s'.workers, dispatchers := s'.dispatchers)
    ensures s'.workers.Keys == s.workers.Keys && s'.dispatchers.Keys == s.dispatchers.Keys
  {
    NoLoss.NoSubmissionLost(c, s0, run);
    var a, m := DropWorkers(c, s);
    var b;
    b, s' := DropDispatchers(c, m);
    ExecJoin(c, s, a, m, b, s');
    ls := a + b;
    NoLoss.InvRun(c, s, ls);
    forall x | x in s'.workers ensures s'.workers[x].Idle? { assert x !in BusyWorkers(m); }
    forall x | x in s'.dispatchers ensures s'.dispatchers[x].Resting? { assert x !in BusyDispatchers(s'); }
  }
}
