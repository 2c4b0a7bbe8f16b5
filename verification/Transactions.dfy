/**
 CreateSubmissionQueued, TryStartSubmission and RecoverStaleSubmission statement by statement, at READ COMMITTED, with
 advisory locks, row locks and uncommitted writes, interleaved with each other and with every other step of the
 lifecycle. `base` is the committed state; a transaction's writes reach it only at its commit.

 `log` is a history variable: the order of atomic steps that the run is claimed to be equivalent to. A committed
 creation enters it at the place of its queued-count read, every other step at the place where it takes effect.
 */
module Transactions {
  import opened Protocol
  import opened Steps

  /** Advisory lock keys are 64-bit hashes, so two participants, or a participant and the global key, may collide. */
  type Hash = ParticipantId -> int

  const GLOBAL_KEY: int := 520202401

  datatype CreatePc =
    | NeedParticipant | NeedGlobal | CountActive | CountQueued
    | InsertRow(mark: nat) | InsertEvent(mark: nat) | CommitCreate(mark: nat, event: nat)
  {
    /** Past the queued count: `mark` is the length of the log at that read. */
    predicate Counted() { InsertRow? || InsertEvent? || CommitCreate? }
    predicate HasGlobal() { CountActive? || CountQueued? || Counted() }
  }

  datatype StartPc =
    | ReadRow | LockParticipant(p: ParticipantId) | LockRow(p: ParticipantId)
    | CountRunning(p: ParticipantId) | UpdateRow(p: ParticipantId) | CommitStart(p: ParticipantId)
  {
    predicate HasRow() { CountRunning? || UpdateRow? || CommitStart? }
    predicate HasParticipant() { LockRow? || HasRow() }
  }

  datatype RecoverPc = UpdateStale | InsertRequeue | CommitRecover(event: nat)

  datatype Tx =
    | Creator(id: SubmissionId, participant: ParticipantId, txTime: nat, cpc: CreatePc)
    | Starter(worker: nat, id: SubmissionId, txTime: nat, spc: StartPc)
    | Recoverer(id: SubmissionId, staleBefore: nat, txTime: nat, rpc: RecoverPc)

  datatype Micro = Micro(base: State, txs: map<nat, Tx>, nextEvent: nat, log: seq<Label>)

  datatype MicroLabel = Begin(x: nat, tx: Tx) | Step(x: nat) | Abort(x: nat) | Direct(l: Label)

  // ----- Locks -----

  predicate HoldsKey(h: Hash, tx: Tx, key: int) {
    match tx
    case Creator(_, p, _, pc) => (!pc.NeedParticipant? && h(p) == key) || (pc.HasGlobal() && key == GLOBAL_KEY)
    case Starter(_, _, _, pc) => pc.HasParticipant() && h(pc.p) == key
    case Recoverer(_, _, _, _) => false
  }

  /** Row locks on rows of `submissions`; an uncommitted insert is invisible and is not counted here. */
  predicate HoldsRow(tx: Tx, id: SubmissionId) {
    match tx
    case Creator(_, _, _, _) => false
    case Starter(_, i, _, pc) => pc.HasRow() && i == id
    case Recoverer(i, _, _, pc) => !pc.UpdateStale? && i == id
  }

  predicate KeyFree(h: Hash, m: Micro, x: nat, key: int) {
    forall y :: y in m.txs && y != x ==> !HoldsKey(h, m.txs[y], key)
  }

  predicate RowFree(m: Micro, x: nat, id: SubmissionId) {
    forall y :: y in m.txs && y != x ==> !HoldsRow(m.txs[y], id)
  }

  // ----- Statements -----

  function Without(m: Micro, x: nat): Micro { m.(txs := m.txs - {x}) }
  function To(m: Micro, x: nat, tx: Tx): Micro { m.(txs := m.txs[x := tx]) }

  function CreatorStep(c: Config, h: Hash, m: Micro, x: nat): Option<Micro>
    requires x in m.txs && m.txs[x].Creator?
  {
    var tx := m.txs[x];
    match tx.cpc
    case NeedParticipant =>
      if KeyFree(h, m, x, h(tx.participant)) then Some(To(m, x, tx.(cpc := NeedGlobal))) else None
    case NeedGlobal =>
      if KeyFree(h, m, x, GLOBAL_KEY) then Some(To(m, x, tx.(cpc := CountActive))) else None
    case CountActive =>
      if |Active(m.base.rows)| >= c.maxActive then Some(Without(m, x)) else Some(To(m, x, tx.(cpc := CountQueued)))
    case CountQueued =>
      if |QueuedOf(m.base.rows, tx.participant)| >= c.maxQueued then Some(Without(m, x))
      else Some(To(m, x, tx.(cpc := InsertRow(|m.log|))))
    case InsertRow(mark) =>
      if tx.id in m.base.rows then Some(Without(m, x)) else Some(To(m, x, tx.(cpc := InsertEvent(mark))))
    case InsertEvent(mark) =>
      Some(To(m, x, tx.(cpc := CommitCreate(mark, m.nextEvent))).(nextEvent := m.nextEvent + 1))
    case CommitCreate(mark, ev) =>
      if mark <= |m.log| then
        Some(Without(m, x).(
          base := WithCreated(m.base, tx.id, tx.participant, ev, tx.txTime),
          log := m.log[..mark] + [Create(tx.id, tx.participant, ev, tx.txTime)] + m.log[mark..]))
      else None
  }

  /** The start transaction ends and processOne acts on its result. */
  function EndStart(m: Micro, x: nat, base': State): Micro
    requires x in m.txs && m.txs[x].Starter?
  {
    Without(m, x).(base := base', log := m.log + [TryStart(m.txs[x].worker, m.txs[x].txTime)])
  }

  function StarterStep(c: Config, h: Hash, m: Micro, x: nat): Option<Micro>
    requires x in m.txs && m.txs[x].Starter?
  {
    var tx := m.txs[x];
    var w := tx.worker;
    if w !in m.base.workers || !m.base.workers[w].Claimed? then None else
    var Claimed(e, at) := m.base.workers[w];
    match tx.spc
    case ReadRow =>
      if tx.id !in m.base.rows then Some(EndStart(m, x, WithWorker(m.base, w, AckWait(e))))
      else Some(To(m, x, tx.(spc := LockParticipant(m.base.rows[tx.id].participant))))
    case LockParticipant(p) =>
      if KeyFree(h, m, x, h(p)) then Some(To(m, x, tx.(spc := LockRow(p)))) else None
    case LockRow(p) =>
      if !RowFree(m, x, tx.id) || tx.id !in m.base.rows then None
      else if !m.base.rows[tx.id].status.Queued? then Some(EndStart(m, x, WithWorker(m.base, w, AckWait(e))))
      else Some(To(m, x, tx.(spc := CountRunning(p))))
    case CountRunning(p) =>
      if |RunningOf(m.base.rows, p)| >= c.maxRunning then Some(EndStart(m, x, WithWorker(m.base, w, Idle)))
      else Some(To(m, x, tx.(spc := UpdateRow(p))))
    case UpdateRow(p) =>
      if tx.id in m.base.rows && m.base.rows[tx.id].status.Queued? then Some(To(m, x, tx.(spc := CommitStart(p))))
      else Some(EndStart(m, x, WithWorker(m.base, w, AckWait(e))))
    case CommitStart(p) =>
      if tx.id in m.base.rows then Some(EndStart(m, x, WithStarted(m.base, w, tx.id, e, at, tx.txTime))) else None
  }

  function RecovererStep(m: Micro, x: nat): Option<Micro>
    requires x in m.txs && m.txs[x].Recoverer?
  {
    var tx := m.txs[x];
    match tx.rpc
    case UpdateStale =>
      if !StaleRow(m.base, tx.id, tx.staleBefore) then Some(Without(m, x))
      else if RowFree(m, x, tx.id) then Some(To(m, x, tx.(rpc := InsertRequeue))) else None
    case InsertRequeue =>
      Some(To(m, x, tx.(rpc := CommitRecover(m.nextEvent))).(nextEvent := m.nextEvent + 1))
    case CommitRecover(ev) =>
      if tx.id in m.base.rows then
        Some(Without(m, x).(base := WithRecovered(m.base, tx.id, ev, tx.txTime),
                            log := m.log + [Recover(tx.id, ev, tx.staleBefore, tx.txTime)]))
      else None
  }

  function StepTx(c: Config, h: Hash, m: Micro, x: nat): Option<Micro> {
    if x !in m.txs then None
    else match m.txs[x]
      case Creator(_, _, _, _) => CreatorStep(c, h, m, x)
      case Starter(_, _, _, _) => StarterStep(c, h, m, x)
      case Recoverer(_, _, _, _) => RecovererStep(m, x)
  }

  /** BEGIN fixes NOW(). A worker has at most one start transaction, for the entry it claimed. */
  predicate MayBegin(c: Config, m: Micro, tx: Tx) {
    match tx
    case Creator(_, _, t, pc) => t == m.base.now && pc == NeedParticipant
    case Starter(w, id, t, pc) =>
      && t == m.base.now && pc == ReadRow
      && w in m.base.workers && m.base.workers[w].Claimed? && HoldsFor(m.base, w, id)
      && (forall y :: y in m.txs && m.txs[y].Starter? ==> m.txs[y].worker != w)
    case Recoverer(_, before, t, pc) => t == m.base.now && pc == UpdateStale && before + c.staleAfter <= m.base.now
  }

  /** Everything that is one autocommitted statement, one Redis command, or time. A single-statement UPDATE whose WHERE
      matches the committed row waits for that row's lock. */
  ghost predicate MayDirect(m: Micro, l: Label) {
    && !l.Create? && !l.TryStart? && !l.Recover?
    && (l.Drop? ==> forall y :: y in m.txs && m.txs[y].Starter? ==> m.txs[y].worker != l.worker)
    && (forall id :: FinishesRow(m.base, l, id) || FailsRow(m.base, l, id) ==>
          forall y :: y in m.txs ==> !HoldsRow(m.txs[y], id))
  }

  ghost function MicroApply(c: Config, h: Hash, m: Micro, ml: MicroLabel): Option<Micro> {
    match ml
    case Begin(x, tx) => if x !in m.txs && MayBegin(c, m, tx) then Some(To(m, x, tx)) else None
    case Step(x) => StepTx(c, h, m, x)
    case Abort(x) => if x in m.txs then Some(Without(m, x)) else None
    case Direct(l) =>
      if MayDirect(m, l) && Apply(c, m.base, l).Some?
      then Some(m.(base := Apply(c, m.base, l).value, log := m.log + [l])) else None
  }

  ghost function MicroExec(c: Config, h: Hash, m: Micro, ms: seq<MicroLabel>): Option<Micro> {
    if ms == [] then Some(m)
    else
      match MicroExec(c, h, m, ms[..|ms| - 1])
      case None => None
      case Some(n) => MicroApply(c, h, n, ms[|ms| - 1])
  }

  function Start(s0: State): Micro { Micro(s0, map[], 0, []) }
}
