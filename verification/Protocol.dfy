/**
 The submission lifecycle as one state machine over two stores that no step changes together:
 PostgreSQL (`rows`, `outbox`) and the Redis Stream with its consumer group (`stream`, `cursor`).
 Workers and outbox dispatchers are processes with a program counter.

 Every step is a `Label`, and `Apply` is a partial function of state and label, so a run is a
 sequence of labels. A step whose guard is false is not a step: `Apply` gives `None`.
 */
module Protocol {

  datatype Option<+T> = None | Some(value: T)

  /** How a command to Redis ends: with its reply, with an error and no effect, or applied with its reply lost. */
  datatype Command = Answered | Unapplied | Unanswered

  datatype SubmissionId = SubmissionId(text: string)
  datatype ParticipantId = ParticipantId(text: string)

  /** Durations are in nanoseconds, as Go's time.Duration is. `halfUp` says on which side of a half microsecond the
      floating-point seconds of `maxBackoff` fall, should it be an odd multiple of 500 nanoseconds. */
  datatype Config = Config(
    maxActive: nat, maxQueued: nat, maxRunning: nat,
    mockWork: nat, hardTimeout: nat, staleAfter: nat, maxBackoff: nat, halfUp: bool)
  {
    /** What the configuration loader insists on; and half a microsecond itself is printed as zero seconds. */
    predicate Valid() {
      && maxActive > 0 && maxQueued > 0 && maxRunning > 0
      && maxBackoff > 0 && mockWork > 0
      && staleAfter > hardTimeout > mockWork
      && (maxBackoff == 500 ==> !halfUp)
    }
  }

  // ----- PostgreSQL -----

  datatype Status = Queued | MockProcessing | Finished | InternalError
  {
    predicate Terminal() { Finished? || InternalError? }
  }

  datatype RunResult = RunResult(
    compileSuccess: bool, compileStderr: string, stdout: string, stderr: string,
    exitCode: int, truncated: bool)

  /** The only result the mock worker ever writes. */
  const MOCK_RESULT := RunResult(true, "", "Phase 1 mock runner: source accepted\n", "", 0, false)

  datatype Row = Row(
    participant: ParticipantId, status: Status,
    startedAt: Option<nat>, finishedAt: Option<nat>, result: Option<RunResult>)

  datatype Event = Event(submission: SubmissionId, delivered: bool, attempts: nat, availableAt: nat)

  type Rows = map<SubmissionId, Row>
  type Outbox = map<nat, Event>

  function Active(rows: Rows): set<SubmissionId> {
    set id | id in rows && !rows[id].status.Terminal()
  }

  function QueuedOf(rows: Rows, p: ParticipantId): set<SubmissionId> {
    set id | id in rows && rows[id].participant == p && rows[id].status.Queued?
  }

  function RunningOf(rows: Rows, p: ParticipantId): set<SubmissionId> {
    set id | id in rows && rows[id].participant == p && rows[id].status.MockProcessing?
  }

  // ----- Redis Stream -----

  /** A stream entry is named by its position in arrival order. `Pending` remembers the consumer and the
      instant of the last delivery, from which the idle time is counted. */
  datatype EntryState = New | Pending(consumer: nat, deliveredAt: nat) | Acked | Gone
  datatype Entry = Entry(submission: SubmissionId, participant: ParticipantId, state: EntryState)
  {
    predicate Live() { state.New? || state.Pending? }
  }

  // ----- Processes -----

  /** A worker inside consumeLoop/processOne. The time stamps are history: when the entry was claimed,
      the transaction time the start wrote, and when the start committed. */
  datatype WorkerPc =
    | Idle
    | Claimed(entry: nat, claimedAt: nat)
    | Started(entry: nat, claimedAt: nat, startedAt: nat, committedAt: nat)
    | AckWait(entry: nat)
    | DelWait(entry: nat)
  {
    /** Holding the entry with a decision already taken, so that it may still be acknowledged. */
    predicate Decided(e: nat) { (Started? || AckWait? || DelWait?) && entry == e }
    predicate Attempting() { Claimed? || Started? }
  }

  /** The transaction of ProcessNextOutbox: it holds the row lock of `event` from the SELECT to the end. */
  datatype DispatchPc =
    | Resting
    | Picked(event: nat, txTime: nat)
    | Sent(event: nat, txTime: nat)
    | Refused(event: nat, txTime: nat)
  {
    predicate Locks(ev: nat) { !Resting? && event == ev }
  }

  datatype State = State(
    now: nat, rows: Rows, outbox: Outbox,
    stream: seq<Entry>, cursor: nat,
    workers: map<nat, WorkerPc>, dispatchers: map<nat, DispatchPc>)

  datatype StartResult = StartStarted | StartQuotaBusy | StartDuplicateOrTerminal | StartNotFound

  datatype Label =
    | Create(id: SubmissionId, participant: ParticipantId, event: nat, txTime: nat)
    | Pick(dispatcher: nat, event: nat, txTime: nat)
    | Send(dispatcher: nat, added: bool, replied: bool)
    | MarkDelivered(dispatcher: nat)
    | MarkFailed(dispatcher: nat)
    | DropDispatch(dispatcher: nat)
    | Claim(worker: nat)
    | AutoClaim(worker: nat, entry: nat)
    | TryStart(worker: nat, txTime: nat)
    | Finish(worker: nat)
    | TimeOut(worker: nat, applied: bool)
    | XAck(worker: nat)
    | XDel(worker: nat)
    | Drop(worker: nat)
    | Recover(id: SubmissionId, event: nat, staleBefore: nat, txTime: nat)
    | Tick(delta: nat)

  // ----- Effects -----

  function NewRow(p: ParticipantId): Row { Row(p, Queued, None, None, None) }
  function NewEvent(id: SubmissionId, t: nat): Event { Event(id, false, 0, t) }

  function WithCreated(s: State, id: SubmissionId, p: ParticipantId, ev: nat, t: nat): State {
    s.(rows := s.rows[id := NewRow(p)], outbox := s.outbox[ev := NewEvent(id, t)])
  }

  function StartedRow(r: Row, t: nat): Row { r.(status := MockProcessing, startedAt := Some(t)) }
  function RequeuedRow(r: Row): Row { r.(status := Queued, startedAt := None) }
  function FinishedRow(r: Row, now: nat): Row {
    r.(status := Finished, finishedAt := Some(now), result := Some(MOCK_RESULT))
  }
  function FailedRow(r: Row, now: nat): Row { r.(status := InternalError, finishedAt := Some(now)) }

  function WithRecovered(s: State, id: SubmissionId, ev: nat, t: nat): State
    requires id in s.rows
  {
    s.(rows := s.rows[id := RequeuedRow(s.rows[id])], outbox := s.outbox[ev := NewEvent(id, t)])
  }

  function WithWorker(s: State, w: nat, pc: WorkerPc): State { s.(workers := s.workers[w := pc]) }
  function WithDispatcher(s: State, d: nat, pc: DispatchPc): State { s.(dispatchers := s.dispatchers[d := pc]) }
  function WithEntry(s: State, e: nat, st: EntryState): State
    requires e < |s.stream|
  {
    s.(stream := s.stream[e := s.stream[e].(state := st)])
  }

  /** time.Second << min(attempts, 20), capped. */
  const SECOND: nat := 1_000_000_000

  function Pow2(n: nat): nat { if n == 0 then 1 else 2 * Pow2(n - 1) }

  function Backoff(attempts: nat, maxBackoff: nat): nat {
    var shifted := SECOND * Pow2(if attempts < 20 then attempts else 20);
    if shifted > maxBackoff then maxBackoff else shifted
  }

  /** "%f seconds" has six decimals: the delay that reaches the database is in whole microseconds. */
  function Micros(duration: nat, halfUp: bool): nat {
    if halfUp then (duration + 500) / 1000 else (duration + 499) / 1000
  }

  function StoredDelay(attempts: nat, maxBackoff: nat, halfUp: bool): nat {
    1000 * Micros(Backoff(attempts, maxBackoff), halfUp)
  }

  // ----- The steps -----

  function DoCreate(c: Config, s: State, id: SubmissionId, p: ParticipantId, ev: nat, t: nat): Option<State> {
    if id !in s.rows && ev !in s.outbox && t <= s.now
       && |Active(s.rows)| < c.maxActive && |QueuedOf(s.rows, p)| < c.maxQueued
    then Some(WithCreated(s, id, p, ev, t)) else None
  }

  predicate Ready(s: State, ev: nat, t: nat) {
    ev in s.outbox && !s.outbox[ev].delivered && s.outbox[ev].availableAt <= t
  }

  predicate EventLocked(s: State, ev: nat) {
    exists d :: d in s.dispatchers && s.dispatchers[d].Locks(ev)
  }

  /** SELECT ... FOR UPDATE OF o SKIP LOCKED: which of the ready unlocked events is left open. */
  function DoPick(s: State, d: nat, ev: nat, t: nat): Option<State> {
    if d in s.dispatchers && s.dispatchers[d].Resting? && t <= s.now && Ready(s, ev, t)
       && s.outbox[ev].submission in s.rows && !EventLocked(s, ev)
    then Some(WithDispatcher(s, d, Picked(ev, t))) else None
  }

  /** XADD: it may take effect without the reply reaching the dispatcher. */
  function DoSend(s: State, d: nat, added: bool, replied: bool): Option<State> {
    if d in s.dispatchers && s.dispatchers[d].Picked? && (replied ==> added)
       && s.dispatchers[d].event in s.outbox && s.outbox[s.dispatchers[d].event].submission in s.rows
    then
      var Picked(ev, t) := s.dispatchers[d];
      var id := s.outbox[ev].submission;
      var s1 := if added then s.(stream := s.stream + [Entry(id, s.rows[id].participant, New)]) else s;
      Some(WithDispatcher(s1, d, if replied then Sent(ev, t) else Refused(ev, t)))
    else None
  }

  function DoMarkDelivered(s: State, d: nat): Option<State> {
    if d in s.dispatchers && s.dispatchers[d].Sent? && s.dispatchers[d].event in s.outbox then
      var ev := s.dispatchers[d].event;
      Some(WithDispatcher(s, d, Resting).(outbox := s.outbox[ev := s.outbox[ev].(delivered := true)]))
    else None
  }

  function DoMarkFailed(c: Config, s: State, d: nat): Option<State> {
    if d in s.dispatchers && s.dispatchers[d].Refused? && s.dispatchers[d].event in s.outbox then
      var Refused(ev, t) := s.dispatchers[d];
      var e := s.outbox[ev];
      var e1 := e.(attempts := e.attempts + 1, availableAt := t + StoredDelay(e.attempts, c.maxBackoff, c.halfUp));
      Some(WithDispatcher(s, d, Resting).(outbox := s.outbox[ev := e1]))
    else None
  }

  function DoDropDispatch(s: State, d: nat): Option<State> {
    if d in s.dispatchers then Some(WithDispatcher(s, d, Resting)) else None
  }

  /** XREADGROUP with ">": the first entry behind the group's last-delivered position. */
  function DoClaim(s: State, w: nat): Option<State> {
    if w in s.workers && s.workers[w].Idle? && s.cursor < |s.stream| then
      Some(WithWorker(WithEntry(s, s.cursor, Pending(w, s.now)), w, Claimed(s.cursor, s.now))
           .(cursor := s.cursor + 1))
    else None
  }

  predicate StaleEntry(c: Config, s: State, e: nat) {
    e < |s.stream| && s.stream[e].state.Pending? && s.stream[e].state.deliveredAt + c.staleAfter <= s.now
  }

  /** XAUTOCLAIM looks at ten pending entries for each one it may return. */
  const SCAN_LIMIT: nat := 10

  function PendingBefore(stream: seq<Entry>, e: nat): nat
    requires e <= |stream|
  {
    if e == 0 then 0 else PendingBefore(stream, e - 1) + (if stream[e - 1].state.Pending? then 1 else 0)
  }

  /** A stale entry among the pending ones that a call from 0-0 looks at. */
  predicate StaleInScan(c: Config, s: State, e: nat) {
    StaleEntry(c, s, e) && PendingBefore(s.stream, e) < SCAN_LIMIT
  }

  ghost predicate NoStale(c: Config, s: State) { forall e :: !StaleInScan(c, s, e) }

  predicate FirstStale(c: Config, s: State, e: nat) {
    StaleInScan(c, s, e) && forall f :: 0 <= f < e ==> !StaleInScan(c, s, f)
  }

  /** XAUTOCLAIM from 0-0 with COUNT 1: the first pending entry in its scan that has idled long enough. */
  function DoAutoClaim(c: Config, s: State, w: nat, e: nat): Option<State> {
    if w in s.workers && s.workers[w].Idle? && FirstStale(c, s, e)
    then Some(WithWorker(WithEntry(s, e, Pending(w, s.now)), w, Claimed(e, s.now)))
    else None
  }

  function StartOutcome(rows: Rows, id: SubmissionId, maxRunning: int): StartResult {
    if id !in rows then StartNotFound
    else if !rows[id].status.Queued? then StartDuplicateOrTerminal
    else if |RunningOf(rows, rows[id].participant)| >= maxRunning then StartQuotaBusy
    else StartStarted
  }

  function WithStarted(s: State, w: nat, id: SubmissionId, e: nat, at: nat, t: nat): State
    requires id in s.rows
  {
    WithWorker(s, w, Started(e, at, t, s.now)).(rows := s.rows[id := StartedRow(s.rows[id], t)])
  }

  predicate MayTryStart(s: State, w: nat, t: nat) {
    && w in s.workers && s.workers[w].Claimed? && s.workers[w].entry < |s.stream|
    && s.workers[w].claimedAt <= t <= s.now
  }

  /** TryStartSubmission and the switch on its result in processOne. */
  function DoTryStart(c: Config, s: State, w: nat, t: nat): Option<State> {
    if MayTryStart(s, w, t) then
      var Claimed(e, at) := s.workers[w];
      var id := s.stream[e].submission;
      match StartOutcome(s.rows, id, c.maxRunning)
      case StartNotFound => Some(WithWorker(s, w, AckWait(e)))
      case StartDuplicateOrTerminal => Some(WithWorker(s, w, AckWait(e)))
      case StartQuotaBusy => Some(WithWorker(s, w, Idle))
      case StartStarted => Some(WithStarted(s, w, id, e, at, t))
    else None
  }

  predicate MayWrite(s: State, w: nat) {
    w in s.workers && s.workers[w].Started? && s.workers[w].entry < |s.stream|
  }

  /** FinishSubmissionConditional: one autocommitted UPDATE guarded by the status. */
  function DoFinish(s: State, w: nat): Option<State> {
    if MayWrite(s, w) then
      var e := s.workers[w].entry;
      var id := s.stream[e].submission;
      if id in s.rows && s.rows[id].status.MockProcessing? then
        Some(WithWorker(s, w, AckWait(e)).(rows := s.rows[id := FinishedRow(s.rows[id], s.now)]))
      else Some(WithWorker(s, w, Idle))
    else None
  }

  /** The timeout branch of processOne: SetInternalError, whose error is ignored, and then Ack. */
  function DoTimeOut(s: State, w: nat, applied: bool): Option<State> {
    if MayWrite(s, w) then
      var e := s.workers[w].entry;
      var id := s.stream[e].submission;
      if applied && id in s.rows && !s.rows[id].status.Terminal() then
        Some(WithWorker(s, w, AckWait(e)).(rows := s.rows[id := FailedRow(s.rows[id], s.now)]))
      else Some(WithWorker(s, w, AckWait(e)))
    else None
  }

  function DoXAck(s: State, w: nat): Option<State> {
    if w in s.workers && s.workers[w].AckWait? && s.workers[w].entry < |s.stream| then
      var e := s.workers[w].entry;
      var s1 := if s.stream[e].state.Pending? then WithEntry(s, e, Acked) else s;
      Some(WithWorker(s1, w, DelWait(e)))
    else None
  }

  function DoXDel(s: State, w: nat): Option<State> {
    if w in s.workers && s.workers[w].DelWait? && s.workers[w].entry < |s.stream| then
      Some(WithWorker(WithEntry(s, s.workers[w].entry, Gone), w, Idle))
    else None
  }

  /** The worker gives up what it holds: an error return, a lost reply, a crash. */
  function DoDrop(s: State, w: nat): Option<State> {
    if w in s.workers then Some(WithWorker(s, w, Idle)) else None
  }

  predicate StaleRow(s: State, id: SubmissionId, before: nat) {
    && id in s.rows && s.rows[id].status.MockProcessing?
    && s.rows[id].startedAt.Some? && s.rows[id].startedAt.value <= before
  }

  /** RecoverStaleSubmission as called by recoveryLoop: the bound was computed from an earlier clock reading. */
  function DoRecover(c: Config, s: State, id: SubmissionId, ev: nat, before: nat, t: nat): Option<State> {
    if StaleRow(s, id, before) && before + c.staleAfter <= s.now && ev !in s.outbox && t <= s.now
    then Some(WithRecovered(s, id, ev, t)) else None
  }

  function Apply(c: Config, s: State, l: Label): Option<State> {
    match l
    case Create(id, p, ev, t) => DoCreate(c, s, id, p, ev, t)
    case Pick(d, ev, t) => DoPick(s, d, ev, t)
    case Send(d, added, replied) => DoSend(s, d, added, replied)
    case MarkDelivered(d) => DoMarkDelivered(s, d)
    case MarkFailed(d) => DoMarkFailed(c, s, d)
    case DropDispatch(d) => DoDropDispatch(s, d)
    case Claim(w) => DoClaim(s, w)
    case AutoClaim(w, e) => DoAutoClaim(c, s, w, e)
    case TryStart(w, t) => DoTryStart(c, s, w, t)
    case Finish(w) => DoFinish(s, w)
    case TimeOut(w, applied) => DoTimeOut(s, w, applied)
    case XAck(w) => DoXAck(s, w)
    case XDel(w) => DoXDel(s, w)
    case Drop(w) => DoDrop(s, w)
    case Recover(id, ev, before, t) => DoRecover(c, s, id, ev, before, t)
    case Tick(d) => Some(s.(now := s.now + d))
  }

  // ----- Runs -----

  function Exec(c: Config, s: State, ls: seq<Label>): Option<State> {
    if ls == [] then Some(s)
    else
      match Exec(c, s, ls[..|ls| - 1])
      case None => None
      case Some(m) => Apply(c, m, ls[|ls| - 1])
  }

  /** Empty stores, every process at rest. Any number of workers and dispatchers. */
  predicate IsInit(s: State) {
    && s.rows == map[] && s.outbox == map[] && s.stream == [] && s.cursor == 0
    && (forall w :: w in s.workers ==> s.workers[w].Idle?)
    && (forall d :: d in s.dispatchers ==> s.dispatchers[d].Resting?)
  }

  lemma ExecOne(c: Config, s: State, l: Label)
    ensures Exec(c, s, [l]) == Apply(c, s, l)
  {
    hide Apply;
    assert [l][..0] == [];
    assert Exec(c, s, [l][..0]) == Some(s);
  }

  lemma {:induction false} ExecConcat(c: Config, s: State, a: seq<Label>, b: seq<Label>)
    requires Exec(c, s, a).Some?
    ensures Exec(c, s, a + b) == Exec(c, Exec(c, s, a).value, b)
    decreases |b|
  {
    hide Apply;
    if b == [] {
      assert a + b == a;
    } else {
      ExecConcat(c, s, a, b[..|b| - 1]);
      assert (a + b)[..|a + b| - 1] == a + b[..|b| - 1];
    }
  }

  lemma ExecSnoc(c: Config, s: State, ls: seq<Label>, l: Label)
    requires Exec(c, s, ls).Some?
    ensures Exec(c, s, ls + [l]) == Apply(c, Exec(c, s, ls).value, l)
  {
    hide Apply;
    assert (ls + [l])[..|ls + [l]| - 1] == ls;
  }

  lemma ExecJoin(c: Config, s: State, a: seq<Label>, m: State, b: seq<Label>, s': State)
    requires Exec(c, s, a) == Some(m) && Exec(c, m, b) == Some(s')
    ensures Exec(c, s, a + b) == Some(s')
  {
    hide Apply;
    ExecConcat(c, s, a, b);
  }

  lemma ExecTwo(c: Config, s: State, l1: Label, m: State, l2: Label, s': State)
    requires Apply(c, s, l1) == Some(m) && Apply(c, m, l2) == Some(s')
    ensures Exec(c, s, [l1, l2]) == Some(s')
  {
    hide Apply;
    ExecOne(c, s, l1);
    ExecSnoc(c, s, [l1], l2);
    assert [l1] + [l2] == [l1, l2];
  }
}
