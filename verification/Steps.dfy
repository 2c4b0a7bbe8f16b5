/**
 What one step of the lifecycle machine does to one row, event, entry, worker or dispatcher.
 `Apply` is unfolded here only; every invariant is proved from these object-wise facts.
 */
module Steps {
  import opened Protocol

  /** The entry that worker `w` holds is for submission `id`. */
  predicate HoldsFor(s: State, w: nat, id: SubmissionId) {
    && w in s.workers && !s.workers[w].Idle? && s.workers[w].entry < |s.stream|
    && s.stream[s.workers[w].entry].submission == id
  }

  predicate StartsRow(c: Config, s: State, l: Label, id: SubmissionId) {
    && l.TryStart? && MayTryStart(s, l.worker, l.txTime) && HoldsFor(s, l.worker, id)
    && StartOutcome(s.rows, id, c.maxRunning).StartStarted?
  }

  predicate FinishesRow(s: State, l: Label, id: SubmissionId) {
    && l.Finish? && MayWrite(s, l.worker) && HoldsFor(s, l.worker, id)
    && id in s.rows && s.rows[id].status.MockProcessing?
  }

  predicate FailsRow(s: State, l: Label, id: SubmissionId) {
    && l.TimeOut? && l.applied && MayWrite(s, l.worker) && HoldsFor(s, l.worker, id)
    && id in s.rows && !s.rows[id].status.Terminal()
  }

  predicate RequeuesRow(c: Config, s: State, l: Label, id: SubmissionId) {
    && l.Recover? && l.id == id && StaleRow(s, id, l.staleBefore)
    && l.staleBefore + c.staleAfter <= s.now
  }

  predicate CreatesRow(c: Config, s: State, l: Label, id: SubmissionId) {
    && l.Create? && l.id == id && id !in s.rows
    && |Active(s.rows)| < c.maxActive && |QueuedOf(s.rows, l.participant)| < c.maxQueued
  }

  ghost predicate RowFact(c: Config, s: State, l: Label, s': State, id: SubmissionId) {
    if id !in s.rows then
      if CreatesRow(c, s, l, id) then id in s'.rows && s'.rows[id] == NewRow(l.participant)
      else id !in s'.rows
    else
      && id in s'.rows
      && s'.rows[id] ==
         if StartsRow(c, s, l, id) then StartedRow(s.rows[id], l.txTime)
         else if FinishesRow(s, l, id) then FinishedRow(s.rows[id], s.now)
         else if FailsRow(s, l, id) then FailedRow(s.rows[id], s.now)
         else if RequeuesRow(c, s, l, id) then RequeuedRow(s.rows[id])
         else s.rows[id]
  }

  predicate AddsEvent(l: Label, ev: nat) { (l.Create? || l.Recover?) && l.event == ev }

  predicate Settles(s: State, l: Label, ev: nat) {
    && (l.MarkDelivered? || l.MarkFailed?)
    && l.dispatcher in s.dispatchers && s.dispatchers[l.dispatcher].Locks(ev)
    && (l.MarkDelivered? ==> s.dispatchers[l.dispatcher].Sent?)
    && (l.MarkFailed? ==> s.dispatchers[l.dispatcher].Refused?)
  }

  ghost predicate EventFact(c: Config, s: State, l: Label, s': State, ev: nat) {
    if ev !in s.outbox then
      if AddsEvent(l, ev) then ev in s'.outbox && s'.outbox[ev] == NewEvent(l.id, l.txTime)
      else ev !in s'.outbox
    else
      && !AddsEvent(l, ev)
      && ev in s'.outbox
      && s'.outbox[ev] ==
         if !Settles(s, l, ev) then s.outbox[ev]
         else if l.MarkDelivered? then s.outbox[ev].(delivered := true)
         else s.outbox[ev].(
           attempts := s.outbox[ev].attempts + 1,
           availableAt := s.dispatchers[l.dispatcher].txTime
                          + StoredDelay(s.outbox[ev].attempts, c.maxBackoff, c.halfUp))
  }

  /** What a label hands out: the entry a Claim or an AutoClaim gives to its worker. */
  predicate HandsOut(s: State, l: Label, e: nat) {
    (l.Claim? && e == s.cursor) || (l.AutoClaim? && e == l.entry)
  }

  predicate Acks(s: State, l: Label, e: nat) {
    l.XAck? && l.worker in s.workers && s.workers[l.worker] == AckWait(e)
  }

  predicate Deletes(s: State, l: Label, e: nat) {
    l.XDel? && l.worker in s.workers && s.workers[l.worker] == DelWait(e)
  }

  function NextEntryState(s: State, l: Label, e: nat): EntryState
    requires e < |s.stream|
  {
    if HandsOut(s, l, e) then Pending(l.worker, s.now)
    else if Acks(s, l, e) && s.stream[e].state.Pending? then Acked
    else if Deletes(s, l, e) then Gone
    else s.stream[e].state
  }

  predicate Appends(l: Label) { l.Send? && l.added }

  /** The entry that an XADD appends names the submission of the picked event and its participant. */
  ghost predicate AppendFact(s: State, l: Label, s': State)
    requires Appends(l)
  {
    && l.dispatcher in s.dispatchers && s.dispatchers[l.dispatcher].Picked?
    && s.dispatchers[l.dispatcher].event in s.outbox
    && var id := s.outbox[s.dispatchers[l.dispatcher].event].submission;
       && id in s.rows
       && s'.stream == s.stream + [Entry(id, s.rows[id].participant, New)]
  }

  ghost predicate EntryFact(c: Config, s: State, l: Label, s': State, e: nat) {
    && |s'.stream| == |s.stream| + (if Appends(l) then 1 else 0)
    && (Appends(l) ==> AppendFact(s, l, s'))
    && (e < |s.stream| ==> s'.stream[e] == s.stream[e].(state := NextEntryState(s, l, e)))
    && (HandsOut(s, l, e) ==> e < |s.stream|)
    && (l.AutoClaim? ==> StaleEntry(c, s, l.entry))
  }

  predicate ActsFor(l: Label, w: nat) {
    (l.Claim? || l.AutoClaim? || l.TryStart? || l.Finish? || l.TimeOut? || l.XAck? || l.XDel? || l.Drop?)
    && l.worker == w
  }

  ghost predicate WorkerFact(c: Config, s: State, l: Label, s': State, w: nat) {
    && (w in s.workers <==> w in s'.workers)
    && (ActsFor(l, w) ==> w in s.workers)
    && (w in s.workers && !ActsFor(l, w) ==> s'.workers[w] == s.workers[w])
    && (ActsFor(l, w) ==> WorkerMove(c, s, l, s.workers[w], s'.workers[w]))
  }

  /** The program of consumeLoop and processOne, one move. */
  ghost predicate WorkerMove(c: Config, s: State, l: Label, pc: WorkerPc, pc': WorkerPc) {
    match l
    case Claim(_) => pc == Idle && pc' == Claimed(s.cursor, s.now)
    case AutoClaim(_, e) => pc == Idle && pc' == Claimed(e, s.now)
    case TryStart(_, t) =>
      && pc.Claimed? && pc.entry < |s.stream| && pc.claimedAt <= t <= s.now
      && pc' == (match StartOutcome(s.rows, s.stream[pc.entry].submission, c.maxRunning)
                 case StartStarted => Started(pc.entry, pc.claimedAt, t, s.now)
                 case StartQuotaBusy => Idle
                 case StartDuplicateOrTerminal => AckWait(pc.entry)
                 case StartNotFound => AckWait(pc.entry))
    case Finish(w) =>
      && pc.Started? && pc.entry < |s.stream|
      && pc' == if FinishesRow(s, l, s.stream[pc.entry].submission) then AckWait(pc.entry) else Idle
    case TimeOut(_, _) => pc.Started? && pc.entry < |s.stream| && pc' == AckWait(pc.entry)
    case XAck(_) => pc.AckWait? && pc.entry < |s.stream| && pc' == DelWait(pc.entry)
    case XDel(_) => pc.DelWait? && pc.entry < |s.stream| && pc' == Idle
    case Drop(_) => pc' == Idle
    case _ => false
  }

  predicate Dispatches(l: Label, d: nat) {
    (l.Pick? || l.Send? || l.MarkDelivered? || l.MarkFailed? || l.DropDispatch?) && l.dispatcher == d
  }

  ghost predicate DispatcherFact(s: State, l: Label, s': State, d: nat) {
    && (d in s.dispatchers <==> d in s'.dispatchers)
    && (Dispatches(l, d) ==> d in s.dispatchers)
    && (d in s.dispatchers && !Dispatches(l, d) ==> s'.dispatchers[d] == s.dispatchers[d])
    && (Dispatches(l, d) ==> DispatchMove(s, l, s.dispatchers[d], s'.dispatchers[d]))
  }

  ghost predicate DispatchMove(s: State, l: Label, pc: DispatchPc, pc': DispatchPc) {
    match l
    case Pick(_, ev, t) => pc == Resting && pc' == Picked(ev, t) && t <= s.now && Ready(s, ev, t) && !EventLocked(s, ev)
    case Send(_, added, replied) =>
      && pc.Picked? && (replied ==> added)
      && pc' == if replied then Sent(pc.event, pc.txTime) else Refused(pc.event, pc.txTime)
    case MarkDelivered(_) => pc.Sent? && pc' == Resting
    case MarkFailed(_) => pc.Refused? && pc' == Resting
    case DropDispatch(_) => pc' == Resting
    case _ => false
  }

  ghost predicate ClockFact(c: Config, s: State, l: Label, s': State) {
    && s'.now == s.now + (if l.Tick? then l.delta else 0)
    && s'.cursor == s.cursor + (if l.Claim? then 1 else 0)
    && (l.Claim? ==> s.cursor < |s.stream|)
    && (l.Create? || l.Recover? ==> l.txTime <= s.now && l.event !in s.outbox)
    && (l.Create? ==> CreatesRow(c, s, l, l.id))
    && (l.Recover? ==> RequeuesRow(c, s, l, l.id))
  }

  ghost predicate Facts(c: Config, s: State, l: Label, s': State) {
    && (forall id :: RowFact(c, s, l, s', id))
    && (forall ev :: EventFact(c, s, l, s', ev))
    && (forall e :: EntryFact(c, s, l, s', e))
    && (forall w :: WorkerFact(c, s, l, s', w))
    && (forall d :: DispatcherFact(s, l, s', d))
    && ClockFact(c, s, l, s')
  }

  lemma RowStep(c: Config, s: State, l: Label, s': State, id: SubmissionId)
    requires Apply(c, s, l) == Some(s')
    ensures RowFact(c, s, l, s', id)
  {
    if l.TryStart? || l.Finish? || l.TimeOut? {
      RowStepOfWorker(c, s, l, s', id);
    }
  }

  lemma RowStepOfWorker(c: Config, s: State, l: Label, s': State, id: SubmissionId)
    requires l.TryStart? || l.Finish? || l.TimeOut?
    requires Apply(c, s, l) == Some(s')
    ensures RowFact(c, s, l, s', id)
  {
  }

  lemma EventStep(c: Config, s: State, l: Label, s': State, ev: nat)
    requires Apply(c, s, l) == Some(s')
    ensures EventFact(c, s, l, s', ev)
  {
  }

  lemma EntryStep(c: Config, s: State, l: Label, s': State, e: nat)
    requires Apply(c, s, l) == Some(s')
    ensures EntryFact(c, s, l, s', e)
  {
    if l.Claim? || l.AutoClaim? {
      EntryStepOfClaim(c, s, l, s', e);
    } else if l.XAck? || l.XDel? {
      EntryStepOfAck(c, s, l, s', e);
    } else if l.Send? {
      EntryStepOfSend(c, s, l, s', e);
    } else {
      assert s'.stream == s.stream;
    }
  }

  lemma EntryStepOfSend(c: Config, s: State, l: Label, s': State, e: nat)
    requires l.Send? && Apply(c, s, l) == Some(s')
    ensures EntryFact(c, s, l, s', e)
  {
  }

  lemma EntryStepOfClaim(c: Config, s: State, l: Label, s': State, e: nat)
    requires l.Claim? || l.AutoClaim?
    requires Apply(c, s, l) == Some(s')
    ensures EntryFact(c, s, l, s', e)
  {
  }

  lemma EntryStepOfAck(c: Config, s: State, l: Label, s': State, e: nat)
    requires l.XAck? || l.XDel?
    requires Apply(c, s, l) == Some(s')
    ensures EntryFact(c, s, l, s', e)
  {
  }

  lemma WorkerStep(c: Config, s: State, l: Label, s': State, w: nat)
    requires Apply(c, s, l) == Some(s')
    ensures WorkerFact(c, s, l, s', w)
  {
    if l.TryStart? || l.Finish? || l.TimeOut? {
      WorkerStepOnRow(c, s, l, s', w);
    }
  }

  lemma WorkerStepOnRow(c: Config, s: State, l: Label, s': State, w: nat)
    requires l.TryStart? || l.Finish? || l.TimeOut?
    requires Apply(c, s, l) == Some(s')
    ensures WorkerFact(c, s, l, s', w)
  {
  }

  lemma DispatcherStep(c: Config, s: State, l: Label, s': State, d: nat)
    requires Apply(c, s, l) == Some(s')
    ensures DispatcherFact(s, l, s', d)
  {
  }

  lemma StepFacts(c: Config, s: State, l: Label, s': State)
    requires Apply(c, s, l) == Some(s')
    ensures Facts(c, s, l, s')
  {
    forall id ensures RowFact(c, s, l, s', id) { RowStep(c, s, l, s', id); }
    forall ev ensures EventFact(c, s, l, s', ev) { EventStep(c, s, l, s', ev); }
    forall e ensures EntryFact(c, s, l, s', e) { EntryStep(c, s, l, s', e); }
    forall w ensures WorkerFact(c, s, l, s', w) { WorkerStep(c, s, l, s', w); }
    forall d ensures DispatcherFact(s, l, s', d) { DispatcherStep(c, s, l, s', d); }
  }
}
