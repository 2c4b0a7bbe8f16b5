/**
 Every statement-level run is equivalent to a run of the atomic machine: the committed state is what the log replays to.
 A creation sits in the log at its queued-count read although it commits later, because recoveries, which take no
 advisory lock, may refill the participant's queue in between.
 */
module Linearizability {
  import opened Protocol
  import opened Steps
  import opened NoLoss
  import opened Transactions
  import Quota

  // ----- Invariants of the transactions in flight -----

  ghost predicate Exclusive(h: Hash, m: Micro) {
    && (forall x, y, key :: x in m.txs && y in m.txs && x != y && HoldsKey(h, m.txs[x], key) ==> !HoldsKey(h, m.txs[y], key))
    && (forall x, y, id :: x in m.txs && y in m.txs && x != y && HoldsRow(m.txs[x], id) ==> !HoldsRow(m.txs[y], id))
  }

  /** The event name a transaction has drawn and not yet committed. */
  function Drawn(tx: Tx): Option<nat> {
    if tx.Creator? && tx.cpc.CommitCreate? then Some(tx.cpc.event)
    else if tx.Recoverer? && tx.rpc.CommitRecover? then Some(tx.rpc.event)
    else None
  }

  /** Event names come from one sequence. */
  ghost predicate FreshEvents(m: Micro) {
    && (forall ev :: ev in m.base.outbox ==> ev < m.nextEvent)
    && (forall x :: x in m.txs && Drawn(m.txs[x]).Some? ==>
          Drawn(m.txs[x]).value < m.nextEvent && Drawn(m.txs[x]).value !in m.base.outbox)
    && (forall x, y :: x in m.txs && y in m.txs && x != y && Drawn(m.txs[x]).Some? ==>
          Drawn(m.txs[x]) != Drawn(m.txs[y]))
  }

  ghost predicate NoCreates(ls: seq<Label>) { forall i :: 0 <= i < |ls| ==> !ls[i].Create? }

  ghost predicate HasRoom(c: Config, s: State, p: ParticipantId, t: nat) {
    |Active(s.rows)| < c.maxActive && |QueuedOf(s.rows, p)| < c.maxQueued && t <= s.now
  }

  /** What the creation read at `mark` is still true of the log at `mark`, and nothing was created since. */
  ghost predicate MarkOk(c: Config, s0: State, m: Micro, tx: Tx, mark: nat)
    requires tx.Creator?
  {
    && mark <= |m.log| && Exec(c, s0, m.log[..mark]).Some?
    && HasRoom(c, Exec(c, s0, m.log[..mark]).value, tx.participant, tx.txTime)
    && NoCreates(m.log[mark..])
  }

  ghost predicate CreatorOk(c: Config, s0: State, m: Micro, tx: Tx)
    requires tx.Creator?
  {
    && tx.txTime <= m.base.now
    && (tx.cpc.CountQueued? ==> |Active(m.base.rows)| < c.maxActive)
    && (tx.cpc.Counted() ==> MarkOk(c, s0, m, tx, tx.cpc.mark))
    && (tx.cpc.InsertEvent? || tx.cpc.CommitCreate? ==> tx.id !in m.base.rows)
  }

  ghost predicate StarterOk(c: Config, s: State, tx: Tx)
    requires tx.Starter?
  {
    && MayTryStart(s, tx.worker, tx.txTime) && HoldsFor(s, tx.worker, tx.id)
    && (!tx.spc.ReadRow? ==> tx.id in s.rows && s.rows[tx.id].participant == tx.spc.p)
    && (tx.spc.HasRow() ==> s.rows[tx.id].status.Queued?)
    && (tx.spc.UpdateRow? || tx.spc.CommitStart? ==> |RunningOf(s.rows, tx.spc.p)| < c.maxRunning)
  }

  ghost predicate RecovererOk(c: Config, s: State, tx: Tx)
    requires tx.Recoverer?
  {
    && tx.txTime <= s.now && tx.staleBefore + c.staleAfter <= s.now
    && (!tx.rpc.UpdateStale? ==> StaleRow(s, tx.id, tx.staleBefore))
  }

  ghost predicate TxOk(c: Config, s0: State, m: Micro, tx: Tx) {
    match tx
    case Creator(_, _, _, _) => CreatorOk(c, s0, m, tx)
    case Starter(_, _, _, _) => StarterOk(c, m.base, tx)
    case Recoverer(_, _, _, _) => RecovererOk(c, m.base, tx)
  }

  ghost predicate OneStartPerWorker(m: Micro) {
    forall x, y :: x in m.txs && y in m.txs && x != y && m.txs[x].Starter? && m.txs[y].Starter? ==>
      m.txs[x].worker != m.txs[y].worker
  }

  ghost predicate MicroInv(c: Config, h: Hash, s0: State, m: Micro) {
    && Exclusive(h, m)
    && FreshEvents(m)
    && OneStartPerWorker(m)
    && (forall x :: x in m.txs ==> TxOk(c, s0, m, m.txs[x]))
    && Exec(c, s0, m.log) == Some(m.base)
    && Inv(m.base)
  }

  // ----- Moving a creation back to its read -----

  lemma MapCommutes<K, V>(m: map<K, V>, k: K, v: V, k': K, v': V)
    requires k != k'
    ensures m[k := v][k' := v'] == m[k' := v'][k := v]
  {
  }

  lemma RunningUnaffected(rows: Rows, id: SubmissionId, p: ParticipantId, q: ParticipantId)
    requires id !in rows
    ensures RunningOf(rows[id := NewRow(p)], q) == RunningOf(rows, q)
  {
  }

  /** The creation of a row nobody refers to yet commutes with every other step. */
  lemma CreateCommutes(c: Config, s: State, l: Label, s': State, id: SubmissionId, p: ParticipantId, ev: nat, t: nat)
    requires Apply(c, s, l) == Some(s') && !l.Create? && WellFormed(s)
    requires id !in s'.rows && ev !in s'.outbox
    ensures Apply(c, WithCreated(s, id, p, ev, t), l) == Some(WithCreated(s', id, p, ev, t))
  {
    match l
    case TryStart(w, u) => StartCommutes(c, s, w, u, s', id, p, ev, t);
    case Finish(w) => WriteCommutes(c, s, l, s', id, p, ev, t);
    case TimeOut(w, _) => WriteCommutes(c, s, l, s', id, p, ev, t);
    case Recover(i, ev', _, u) =>
      MapCommutes(s.rows, id, NewRow(p), i, RequeuedRow(s.rows[i]));
      MapCommutes(s.outbox, ev, NewEvent(id, t), ev', NewEvent(i, u));
    case _ => OtherCommutes(c, s, l, s', id, p, ev, t);
  }

  lemma StartCommutes(c: Config, s: State, w: nat, u: nat, s': State,
                      id: SubmissionId, p: ParticipantId, ev: nat, t: nat)
    requires DoTryStart(c, s, w, u) == Some(s') && References(s) && id !in s'.rows
    ensures DoTryStart(c, WithCreated(s, id, p, ev, t), w, u) == Some(WithCreated(s', id, p, ev, t))
  {
    var id' := s.stream[s.workers[w].entry].submission;
    RunningUnaffected(s.rows, id, p, s.rows[id'].participant);
    MapCommutes(s.rows, id, NewRow(p), id', StartedRow(s.rows[id'], u));
  }

  lemma WriteCommutes(c: Config, s: State, l: Label, s': State, id: SubmissionId, p: ParticipantId, ev: nat, t: nat)
    requires l.Finish? || l.TimeOut?
    requires Apply(c, s, l) == Some(s') && References(s) && id !in s'.rows
    ensures Apply(c, WithCreated(s, id, p, ev, t), l) == Some(WithCreated(s', id, p, ev, t))
  {
    var id' := s.stream[s.workers[l.worker].entry].submission;
    MapCommutes(s.rows, id, NewRow(p), id', s'.rows[id']);
  }

  lemma OtherCommutes(c: Config, s: State, l: Label, s': State, id: SubmissionId, p: ParticipantId, ev: nat, t: nat)
    requires !l.Create? && !l.TryStart? && !l.Finish? && !l.TimeOut? && !l.Recover?
    requires Apply(c, s, l) == Some(s') && References(s) && id !in s'.rows && ev !in s'.outbox
    ensures Apply(c, WithCreated(s, id, p, ev, t), l) == Some(WithCreated(s', id, p, ev, t))
  {
    if l.Pick? || l.Send? || l.MarkDelivered? || l.MarkFailed? {
      DispatchCommutes(c, s, l, s', id, p, ev, t);
    } else if l.AutoClaim? {
      assert forall f: nat :: StaleInScan(c, WithCreated(s, id, p, ev, t), f) == StaleInScan(c, s, f);
    }
  }

  lemma DispatchCommutes(c: Config, s: State, l: Label, s': State, id: SubmissionId, p: ParticipantId, ev: nat, t: nat)
    requires l.Pick? || l.Send? || l.MarkDelivered? || l.MarkFailed?
    requires Apply(c, s, l) == Some(s') && References(s) && id !in s'.rows && ev !in s'.outbox
    ensures Apply(c, WithCreated(s, id, p, ev, t), l) == Some(WithCreated(s', id, p, ev, t))
  {
    if l.Pick? {
      assert EventLocked(WithCreated(s, id, p, ev, t), l.event) == EventLocked(s, l.event);
    } else if !l.Send? {
      var ev' := s.dispatchers[l.dispatcher].event;
      MapCommutes(s.outbox, ev, NewEvent(id, t), ev', s'.outbox[ev']);
    }
  }

  function Inserted(log: seq<Label>, mark: nat, l: Label): seq<Label>
    requires mark <= |log|
  {
    log[..mark] + [l] + log[mark..]
  }

  /** A creation that found room at `mark` may be replayed there: the rest of the log then leads to the same state
      with the creation added. */
  lemma {:induction false} InsertCreation(c: Config, s0: State, log: seq<Label>, mark: nat, l: Label)
    requires Inv(s0) && l.Create? && mark <= |log| && Exec(c, s0, log).Some?
    requires Exec(c, s0, log[..mark]).Some? && HasRoom(c, Exec(c, s0, log[..mark]).value, l.participant, l.txTime)
    requires NoCreates(log[mark..])
    requires l.id !in Exec(c, s0, log).value.rows && l.event !in Exec(c, s0, log).value.outbox
    ensures Exec(c, s0, Inserted(log, mark, l))
            == Some(WithCreated(Exec(c, s0, log).value, l.id, l.participant, l.event, l.txTime))
    decreases |log|
  {
    var s := Exec(c, s0, log).value;
    if mark == |log| {
      assert log[..mark] == log && Inserted(log, mark, l) == log + [l];
      ExecSnoc(c, s0, log, l);
    } else {
      var pre, last := log[..|log| - 1], log[|log| - 1];
      var m := Exec(c, s0, pre).value;
      InvRun(c, s0, pre);
      RowStep(c, m, last, s, l.id);
      EventStep(c, m, last, s, l.event);
      assert pre[..mark] == log[..mark];
      assert last == log[mark..][|log| - 1 - mark];
      assert NoCreates(pre[mark..]) by {
        forall i | 0 <= i < |pre[mark..]| ensures !pre[mark..][i].Create? {
          assert pre[mark..][i] == log[mark..][i];
        }
      }
      InsertCreation(c, s0, pre, mark, l);
      CreateCommutes(c, m, last, s, l.id, l.participant, l.event, l.txTime);
      ExecSnoc(c, s0, Inserted(pre, mark, l), last);
      assert Inserted(pre, mark, l) + [last] == Inserted(log, mark, l);
    }
  }

  // ----- What a step of the others leaves true -----

  ghost predicate NonInterfering(c: Config, s: State, l: Label, tx: Tx) {
    match tx
    case Creator(_, _, _, _) => true
    case Starter(w, id, _, pc) =>
      && !ActsFor(l, w)
      && (pc.HasRow() ==> !FailsRow(s, l, id) && !StartsRow(c, s, l, id))
      && (pc.UpdateRow? || pc.CommitStart? ==>
            forall i :: StartsRow(c, s, l, i) ==> s.rows[i].participant != pc.p)
    case Recoverer(id, _, _, pc) =>
      !pc.UpdateStale? ==> !FinishesRow(s, l, id) && !FailsRow(s, l, id) && !RequeuesRow(c, s, l, id)
  }

  lemma StarterKept(c: Config, s: State, l: Label, s': State, tx: Tx)
    requires Facts(c, s, l, s') && tx.Starter? && StarterOk(c, s, tx) && NonInterfering(c, s, l, tx)
    ensures StarterOk(c, s', tx)
  {
    assert WorkerFact(c, s, l, s', tx.worker);
    assert EntryFact(c, s, l, s', s.workers[tx.worker].entry);
    assert RowFact(c, s, l, s', tx.id);
    if tx.spc.UpdateRow? || tx.spc.CommitStart? {
      var p := tx.spc.p;
      forall i | i in RunningOf(s'.rows, p) ensures i in RunningOf(s.rows, p) {
        assert RowFact(c, s, l, s', i);
      }
      Quota.SubsetSize(RunningOf(s'.rows, p), RunningOf(s.rows, p));
    }
  }

  lemma RecovererKept(c: Config, s: State, l: Label, s': State, tx: Tx)
    requires Facts(c, s, l, s') && tx.Recoverer? && RecovererOk(c, s, tx) && NonInterfering(c, s, l, tx)
    ensures RecovererOk(c, s', tx)
  {
    assert RowFact(c, s, l, s', tx.id);
  }

  lemma CreatorKept(c: Config, s0: State, m: Micro, l: Label, m': Micro, tx: Tx)
    requires tx.Creator? && CreatorOk(c, s0, m, tx) && Facts(c, m.base, l, m'.base) && !l.Create?
    requires m'.log == m.log + [l]
    ensures CreatorOk(c, s0, m', tx)
  {
    assert RowFact(c, m.base, l, m'.base, tx.id);
    Quota.ActiveStep(c, m.base, l, m'.base);
    if tx.cpc.Counted() {
      var mark := tx.cpc.mark;
      assert m'.log[..mark] == m.log[..mark];
      assert m'.log[mark..] == m.log[mark..] + [l];
    }
  }

  lemma TxKept(c: Config, s0: State, m: Micro, l: Label, m': Micro, tx: Tx)
    requires TxOk(c, s0, m, tx) && Facts(c, m.base, l, m'.base) && !l.Create? && NonInterfering(c, m.base, l, tx)
    requires m'.log == m.log + [l]
    ensures TxOk(c, s0, m', tx)
  {
    match tx
    case Creator(_, _, _, _) => CreatorKept(c, s0, m, l, m', tx);
    case Starter(_, _, _, _) => StarterKept(c, m.base, l, m'.base, tx);
    case Recoverer(_, _, _, _) => RecovererKept(c, m.base, l, m'.base, tx);
  }

  lemma EventsKept(c: Config, m: Micro, l: Label, m': Micro)
    requires FreshEvents(m) && Facts(c, m.base, l, m'.base) && m'.nextEvent == m.nextEvent
    requires forall y :: y in m'.txs ==> y in m.txs && m'.txs[y] == m.txs[y]
    requires forall ev: nat :: AddsEvent(l, ev) ==> ev < m.nextEvent && forall y :: y in m'.txs ==> Drawn(m'.txs[y]) != Some(ev)
    ensures FreshEvents(m')
  {
    forall ev | ev in m'.base.outbox ensures ev < m'.nextEvent {
      assert EventFact(c, m.base, l, m'.base, ev);
    }
    forall x | x in m'.txs && Drawn(m'.txs[x]).Some? ensures Drawn(m'.txs[x]).value !in m'.base.outbox {
      assert EventFact(c, m.base, l, m'.base, Drawn(m'.txs[x]).value);
    }
  }

  /** An atomic step that ends transaction `x`, or no transaction, and leaves the others alone. */
  lemma LoggedStep(c: Config, h: Hash, s0: State, m: Micro, l: Label, m': Micro)
    requires MicroInv(c, h, s0, m) && !l.Create? && Apply(c, m.base, l) == Some(m'.base)
    requires m'.log == m.log + [l] && m'.nextEvent == m.nextEvent
    requires forall y :: y in m'.txs ==> y in m.txs && m'.txs[y] == m.txs[y]
    requires forall y :: y in m'.txs ==> NonInterfering(c, m.base, l, m'.txs[y])
    requires forall ev: nat :: AddsEvent(l, ev) ==> ev < m.nextEvent && forall y :: y in m'.txs ==> Drawn(m'.txs[y]) != Some(ev)
    ensures MicroInv(c, h, s0, m')
  {
    StepFacts(c, m.base, l, m'.base);
    InvStep(c, m.base, l, m'.base);
    ExecSnoc(c, s0, m.log, l);
    EventsKept(c, m, l, m');
    forall y | y in m'.txs ensures TxOk(c, s0, m', m'.txs[y]) {
      TxKept(c, s0, m, l, m', m'.txs[y]);
    }
  }

  lemma DirectStep(c: Config, h: Hash, s0: State, m: Micro, l: Label, m': Micro)
    requires MicroInv(c, h, s0, m) && MicroApply(c, h, m, Direct(l)) == Some(m')
    ensures MicroInv(c, h, s0, m')
  {
    StepFacts(c, m.base, l, m'.base);
    forall y | y in m'.txs ensures NonInterfering(c, m.base, l, m'.txs[y]) {
      assert TxOk(c, s0, m, m.txs[y]);
      DirectSpares(c, m, l, m'.base, y);
    }
    LoggedStep(c, h, s0, m, l, m');
  }

  lemma DirectSpares(c: Config, m: Micro, l: Label, s': State, y: nat)
    requires MayDirect(m, l) && Facts(c, m.base, l, s') && y in m.txs
    requires m.txs[y].Starter? ==> StarterOk(c, m.base, m.txs[y])
    ensures NonInterfering(c, m.base, l, m.txs[y])
  {
    var tx := m.txs[y];
    if tx.Starter? {
      assert WorkerFact(c, m.base, l, s', tx.worker);
    }
    if tx.Starter? || tx.Recoverer? {
      if FinishesRow(m.base, l, tx.id) || FailsRow(m.base, l, tx.id) {
        assert !HoldsRow(tx, tx.id);
      }
    }
  }

  // ----- The transactions' own steps -----

  /** A statement that changes no committed data: transaction `x` moves on, and any lock it gains was free. */
  lemma QuietStep(c: Config, h: Hash, s0: State, m: Micro, x: nat, tx: Tx, m': Micro)
    requires MicroInv(c, h, s0, m) && m' == To(m, x, tx).(nextEvent := m'.nextEvent)
    requires m.nextEvent <= m'.nextEvent && TxOk(c, s0, m, tx)
    requires x in m.txs ==> m.txs[x].Starter? == tx.Starter? && (tx.Starter? ==> tx.worker == m.txs[x].worker)
    requires x !in m.txs && tx.Starter? ==> forall y :: y in m.txs && m.txs[y].Starter? ==> m.txs[y].worker != tx.worker
    requires forall key :: HoldsKey(h, tx, key) ==> (x in m.txs && HoldsKey(h, m.txs[x], key)) || KeyFree(h, m, x, key)
    requires forall id :: HoldsRow(tx, id) ==> (x in m.txs && HoldsRow(m.txs[x], id)) || RowFree(m, x, id)
    requires Drawn(tx).None? || (x in m.txs && Drawn(m.txs[x]) == Drawn(tx))
             || (Drawn(tx).value == m.nextEvent && m'.nextEvent == m.nextEvent + 1)
    ensures MicroInv(c, h, s0, m')
  {
    forall y | y in m'.txs ensures TxOk(c, s0, m', m'.txs[y]) {
      assert y != x ==> TxOk(c, s0, m, m.txs[y]);
    }
    QuietLocks(h, m, x, tx, m');
    QuietEvents(m, x, tx, m');
  }

  lemma QuietLocks(h: Hash, m: Micro, x: nat, tx: Tx, m': Micro)
    requires Exclusive(h, m) && m'.txs == m.txs[x := tx]
    requires forall key :: HoldsKey(h, tx, key) ==> (x in m.txs && HoldsKey(h, m.txs[x], key)) || KeyFree(h, m, x, key)
    requires forall id :: HoldsRow(tx, id) ==> (x in m.txs && HoldsRow(m.txs[x], id)) || RowFree(m, x, id)
    ensures Exclusive(h, m')
  {
  }

  lemma QuietEvents(m: Micro, x: nat, tx: Tx, m': Micro)
    requires FreshEvents(m) && m'.txs == m.txs[x := tx] && m'.base == m.base && m.nextEvent <= m'.nextEvent
    requires Drawn(tx).None? || (x in m.txs && Drawn(m.txs[x]) == Drawn(tx))
             || (Drawn(tx).value == m.nextEvent && m'.nextEvent == m.nextEvent + 1)
    ensures FreshEvents(m')
  {
  }

  /** A transaction that ends without a commit leaves nothing behind. */
  lemma EndedWithoutTrace(c: Config, h: Hash, s0: State, m: Micro, x: nat)
    requires MicroInv(c, h, s0, m) && x in m.txs
    ensures MicroInv(c, h, s0, Without(m, x))
  {
    var m' := Without(m, x);
    forall y | y in m'.txs ensures TxOk(c, s0, m', m'.txs[y]) {
      assert TxOk(c, s0, m, m.txs[y]);
    }
  }

  /** The end of a start transaction is the atomic TryStart at that moment, whatever its outcome. */
  lemma StartIsAtomic(c: Config, h: Hash, m: Micro, x: nat, m': Micro)
    requires x in m.txs && m.txs[x].Starter? && StarterOk(c, m.base, m.txs[x])
    requires StarterStep(c, h, m, x) == Some(m') && x !in m'.txs
    ensures m' == EndStart(m, x, m'.base)
    ensures Apply(c, m.base, TryStart(m.txs[x].worker, m.txs[x].txTime)) == Some(m'.base)
    ensures forall id :: StartsRow(c, m.base, TryStart(m.txs[x].worker, m.txs[x].txTime), id) ==>
              m.txs[x].spc.CommitStart? && id == m.txs[x].id && m.base.rows[id].participant == m.txs[x].spc.p
  {
  }

  lemma StarterEnds(c: Config, h: Hash, s0: State, m: Micro, x: nat, m': Micro)
    requires MicroInv(c, h, s0, m) && x in m.txs && m.txs[x].Starter?
    requires StarterStep(c, h, m, x) == Some(m') && x !in m'.txs
    ensures MicroInv(c, h, s0, m')
  {
    var tx := m.txs[x];
    assert TxOk(c, s0, m, tx);
    StartIsAtomic(c, h, m, x, m');
    var l := TryStart(tx.worker, tx.txTime);
    forall y | y in m'.txs ensures NonInterfering(c, m.base, l, m'.txs[y]) {
      assert HoldsRow(tx, tx.id) ==> !HoldsRow(m.txs[y], tx.id);
      assert tx.spc.CommitStart? ==> !HoldsKey(h, m.txs[y], h(tx.spc.p));
    }
    LoggedStep(c, h, s0, m, l, m');
  }

  /** A start transaction that goes on has changed no committed data, and any lock it gained was free. */
  lemma StarterAdvances(c: Config, h: Hash, m: Micro, x: nat, m': Micro)
    requires x in m.txs && m.txs[x].Starter? && StarterOk(c, m.base, m.txs[x])
    requires StarterStep(c, h, m, x) == Some(m') && x in m'.txs
    ensures m' == To(m, x, m'.txs[x]) && StarterOk(c, m.base, m'.txs[x])
    ensures m'.txs[x].worker == m.txs[x].worker
    ensures forall key :: HoldsKey(h, m'.txs[x], key) ==> HoldsKey(h, m.txs[x], key) || KeyFree(h, m, x, key)
    ensures forall id :: HoldsRow(m'.txs[x], id) ==> HoldsRow(m.txs[x], id) || RowFree(m, x, id)
  {
  }

  lemma StarterMoves(c: Config, h: Hash, s0: State, m: Micro, x: nat, m': Micro)
    requires MicroInv(c, h, s0, m) && x in m.txs && m.txs[x].Starter?
    requires StarterStep(c, h, m, x) == Some(m') && x in m'.txs
    ensures MicroInv(c, h, s0, m')
  {
    assert TxOk(c, s0, m, m.txs[x]);
    StarterAdvances(c, h, m, x, m');
    QuietStep(c, h, s0, m, x, m'.txs[x], m');
  }

  lemma RecoverEnds(c: Config, h: Hash, s0: State, m: Micro, x: nat, m': Micro)
    requires MicroInv(c, h, s0, m) && x in m.txs && m.txs[x].Recoverer? && m.txs[x].rpc.CommitRecover?
    requires RecovererStep(m, x) == Some(m')
    ensures MicroInv(c, h, s0, m')
  {
    var tx := m.txs[x];
    assert TxOk(c, s0, m, tx);
    var l := Recover(tx.id, tx.rpc.event, tx.staleBefore, tx.txTime);
    assert Drawn(tx) == Some(tx.rpc.event);
    assert Apply(c, m.base, l) == Some(m'.base);
    forall y | y in m'.txs ensures NonInterfering(c, m.base, l, m'.txs[y]) {
      assert HoldsRow(tx, tx.id) ==> !HoldsRow(m.txs[y], tx.id);
    }
    LoggedStep(c, h, s0, m, l, m');
  }

  lemma RecoverMoves(c: Config, h: Hash, s0: State, m: Micro, x: nat, m': Micro)
    requires MicroInv(c, h, s0, m) && x in m.txs && m.txs[x].Recoverer? && !m.txs[x].rpc.CommitRecover?
    requires RecovererStep(m, x) == Some(m')
    ensures MicroInv(c, h, s0, m')
  {
    assert TxOk(c, s0, m, m.txs[x]);
    if x in m'.txs {
      QuietStep(c, h, s0, m, x, m'.txs[x], m');
    } else {
      EndedWithoutTrace(c, h, s0, m, x);
    }
  }

  /** A creation that goes on has changed no committed data, any lock it gained was free, and an event name it drew is
      new. */
  lemma CreatorAdvances(c: Config, h: Hash, s0: State, m: Micro, x: nat, m': Micro)
    requires x in m.txs && m.txs[x].Creator? && !m.txs[x].cpc.CommitCreate? && CreatorOk(c, s0, m, m.txs[x])
    requires Exec(c, s0, m.log) == Some(m.base)
    requires CreatorStep(c, h, m, x) == Some(m') && x in m'.txs
    ensures m' == To(m, x, m'.txs[x]).(nextEvent := m'.nextEvent) && m.nextEvent <= m'.nextEvent
    ensures m'.txs[x].Creator? && CreatorOk(c, s0, m, m'.txs[x])
    ensures forall key :: HoldsKey(h, m'.txs[x], key) ==> HoldsKey(h, m.txs[x], key) || KeyFree(h, m, x, key)
    ensures Drawn(m'.txs[x]).None? || (Drawn(m'.txs[x]).value == m.nextEvent && m'.nextEvent == m.nextEvent + 1)
  {
    assert m.log[..|m.log|] == m.log;
  }

  lemma CreatorMoves(c: Config, h: Hash, s0: State, m: Micro, x: nat, m': Micro)
    requires MicroInv(c, h, s0, m) && x in m.txs && m.txs[x].Creator? && !m.txs[x].cpc.CommitCreate?
    requires CreatorStep(c, h, m, x) == Some(m')
    ensures MicroInv(c, h, s0, m')
  {
    assert TxOk(c, s0, m, m.txs[x]);
    if x in m'.txs {
      CreatorAdvances(c, h, s0, m, x, m');
      QuietStep(c, h, s0, m, x, m'.txs[x], m');
    } else {
      EndedWithoutTrace(c, h, s0, m, x);
    }
  }

  lemma OthersSurviveCreation(c: Config, h: Hash, s0: State, m: Micro, x: nat, m': Micro, y: nat)
    requires MicroInv(c, h, s0, m) && x in m.txs && m.txs[x].Creator? && m.txs[x].cpc.CommitCreate?
    requires CreatorStep(c, h, m, x) == Some(m') && y in m'.txs
    ensures TxOk(c, s0, m', m'.txs[y])
  {
    var tx, other := m.txs[x], m.txs[y];
    assert TxOk(c, s0, m, tx) && TxOk(c, s0, m, other);
    assert HoldsKey(h, tx, GLOBAL_KEY);
    assert !HoldsKey(h, other, GLOBAL_KEY);
    if other.Starter? && !other.spc.ReadRow? {
      RunningUnaffected(m.base.rows, tx.id, tx.participant, other.spc.p);
    }
  }

  lemma CreateEnds(c: Config, h: Hash, s0: State, m: Micro, x: nat, m': Micro)
    requires Inv(s0) && MicroInv(c, h, s0, m) && x in m.txs && m.txs[x].Creator? && m.txs[x].cpc.CommitCreate?
    requires CreatorStep(c, h, m, x) == Some(m')
    ensures MicroInv(c, h, s0, m')
  {
    var tx := m.txs[x];
    assert TxOk(c, s0, m, tx);
    var mark, ev := tx.cpc.mark, tx.cpc.event;
    assert Drawn(tx) == Some(ev);
    var l := Create(tx.id, tx.participant, ev, tx.txTime);
    InsertCreation(c, s0, m.log, mark, l);
    assert m'.log == Inserted(m.log, mark, l);
    InvRun(c, s0, m'.log);
    forall y | y in m'.txs ensures TxOk(c, s0, m', m'.txs[y]) {
      OthersSurviveCreation(c, h, s0, m, x, m', y);
    }
  }

  lemma MicroInvStep(c: Config, h: Hash, s0: State, m: Micro, ml: MicroLabel, m': Micro)
    requires Inv(s0) && MicroInv(c, h, s0, m) && MicroApply(c, h, m, ml) == Some(m')
    ensures MicroInv(c, h, s0, m')
  {
    match ml
    case Begin(x, tx) => QuietStep(c, h, s0, m, x, tx, m');
    case Abort(x) => EndedWithoutTrace(c, h, s0, m, x);
    case Direct(l) => DirectStep(c, h, s0, m, l, m');
    case Step(x) =>
      match m.txs[x]
      case Creator(_, _, _, pc) =>
        if pc.CommitCreate? { CreateEnds(c, h, s0, m, x, m'); } else { CreatorMoves(c, h, s0, m, x, m'); }
      case Starter(_, _, _, _) =>
        if x in m'.txs { StarterMoves(c, h, s0, m, x, m'); } else { StarterEnds(c, h, s0, m, x, m'); }
      case Recoverer(_, _, _, pc) =>
        if pc.CommitRecover? { RecoverEnds(c, h, s0, m, x, m'); } else { RecoverMoves(c, h, s0, m, x, m'); }
  }

  lemma {:induction false} MicroInvRun(c: Config, h: Hash, s0: State, ms: seq<MicroLabel>)
    requires IsInit(s0) && MicroExec(c, h, Start(s0), ms).Some?
    ensures MicroInv(c, h, s0, MicroExec(c, h, Start(s0), ms).value)
    decreases |ms|
  {
    if ms != [] {
      MicroInvRun(c, h, s0, ms[..|ms| - 1]);
      MicroInvStep(c, h, s0, MicroExec(c, h, Start(s0), ms[..|ms| - 1]).value, ms[|ms| - 1],
                   MicroExec(c, h, Start(s0), ms).value);
    }
  }

  /** Linearizability: whatever the interleaving of statements, for every hash, the committed state is the state the
      atomic machine reaches by the logged steps. */
  lemma Linearizable(c: Config, h: Hash, s0: State, ms: seq<MicroLabel>, m: Micro)
    requires IsInit(s0) && MicroExec(c, h, Start(s0), ms) == Some(m)
    ensures Exec(c, s0, m.log) == Some(m.base)
  {
    MicroInvRun(c, h, s0, ms);
  }

  /** So what holds of every atomic run holds of the statements: the quotas, the capacity, and that nothing is lost. */
  lemma StatementLevelGuarantees(c: Config, h: Hash, s0: State, ms: seq<MicroLabel>, m: Micro, p: ParticipantId)
    requires IsInit(s0) && MicroExec(c, h, Start(s0), ms) == Some(m)
    ensures NothingLost(m.base)
    ensures |Active(m.base.rows)| <= c.maxActive
    ensures |RunningOf(m.base.rows, p)| <= c.maxRunning
    ensures |QueuedOf(m.base.rows, p)| + |RunningOf(m.base.rows, p)| <= c.maxQueued + c.maxRunning
  {
    Linearizable(c, h, s0, ms, m);
    NoSubmissionLost(c, s0, m.log);
    Quota.LimitsHold(c, s0, m.log);
    assert Quota.ParticipantWithin(c, m.base.rows, p);
  }
}
