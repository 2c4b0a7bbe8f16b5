/**
 The mock worker's loops, one round at a time, on the tables and the queue. Each round, with whatever faults it meets,
 is a run of the lifecycle machine: the code does not do anything that the machine's labels do not.
 */
module Worker {
  import opened Protocol
  import opened Database
  import opened StreamQueue

  ghost function World(db: Tables, q: Queue, now: nat, workers: map<nat, WorkerPc>, dispatchers: map<nat, DispatchPc>): State
    requires AllWellFormed(q.messages)
    reads db, q
  {
    State(now, db.rows, db.outbox, StreamOf(q.messages), q.cursor, workers, dispatchers)
  }

  /** What a call of processOne meets: the faults of its statements, whether the hard timeout fires first, and how much
      time passes before the start and before the final write. */
  datatype Luck = Luck(start: Fault, timesOut: bool, write: Fault, ack: AckFault, beforeStart: nat, beforeWrite: nat)

  lemma StreamUpdate(messages: seq<Message>, e: nat, st: EntryState)
    requires AllWellFormed(messages) && e < |messages|
    ensures AllWellFormed(messages[e := messages[e].(state := st)])
    ensures StreamOf(messages[e := messages[e].(state := st)]) ==
            StreamOf(messages)[e := StreamOf(messages)[e].(state := st)]
  {
  }

  /** Acknowledging and letting go, as labels. */
  ghost function AckLabels(w: nat, fault: AckFault): seq<Label> {
    match fault
    case AckFine => [XAck(w), XDel(w)]
    case XAckFailed(applied) => if applied then [XAck(w), Drop(w)] else [Drop(w)]
    case XDelFailed(applied) => if applied then [XAck(w), XDel(w)] else [XAck(w), Drop(w)]
  }

  /** XACK in the machine: a pending entry leaves the pending list. */
  lemma XAckIs(c: Config, s: State, w: nat, e: nat, messages: seq<Message>)
    requires AllWellFormed(messages) && e < |messages| && w in s.workers && s.workers[w] == AckWait(e)
    requires s.stream == StreamOf(messages)
    ensures var acked := messages[e := messages[e].(state := Acknowledged(messages[e].state))];
            && AllWellFormed(acked)
            && Apply(c, s, XAck(w)) == Some(s.(stream := StreamOf(acked), workers := s.workers[w := DelWait(e)]))
  {
    StreamUpdate(messages, e, Acknowledged(messages[e].state));
    assert !s.stream[e].state.Pending? ==> s.stream[e := s.stream[e].(state := s.stream[e].state)] == s.stream;
  }

  lemma XDelIs(c: Config, s: State, w: nat, e: nat, messages: seq<Message>)
    requires AllWellFormed(messages) && e < |messages| && w in s.workers && s.workers[w] == DelWait(e)
    requires s.stream == StreamOf(messages)
    ensures var gone := messages[e := messages[e].(state := Gone)];
            && AllWellFormed(gone)
            && Apply(c, s, XDel(w)) == Some(s.(stream := StreamOf(gone), workers := s.workers[w := Idle]))
  {
    StreamUpdate(messages, e, Gone);
  }

  lemma DropIs(c: Config, s: State, w: nat)
    requires w in s.workers
    ensures Apply(c, s, Drop(w)) == Some(s.(workers := s.workers[w := Idle]))
  {
  }

  /** Any acknowledgement, whatever fails in it, is a run of the machine that ends with the worker idle. */
  lemma AckRun(c: Config, s: State, w: nat, e: nat, messages: seq<Message>, fault: AckFault)
    requires AllWellFormed(messages) && e < |messages|
    requires w in s.workers && s.workers[w] == AckWait(e) && s.stream == StreamOf(messages)
    ensures AllWellFormed(AfterAck(messages, e, fault))
    ensures Exec(c, s, AckLabels(w, fault)) ==
            Some(s.(stream := StreamOf(AfterAck(messages, e, fault)), workers := s.workers[w := Idle]))
  {
    var acked := messages[e := messages[e].(state := Acknowledged(messages[e].state))];
    XAckIs(c, s, w, e, messages);
    var m := s.(stream := StreamOf(acked), workers := s.workers[w := DelWait(e)]);
    assert m.workers[w := Idle] == s.workers[w := Idle];
    if (fault.XAckFailed? && fault.applied) || (fault.XDelFailed? && !fault.applied) {
      DropIs(c, m, w);
      ExecTwo(c, s, XAck(w), m, Drop(w), m.(workers := m.workers[w := Idle]));
    } else if fault.XAckFailed? {
      DropIs(c, s, w);
      ExecOne(c, s, Drop(w));
    } else {
      XDelIs(c, m, w, e, acked);
      assert acked[e := acked[e].(state := Gone)] == messages[e := messages[e].(state := Gone)];
      ExecTwo(c, s, XAck(w), m, XDel(w), Apply(c, m, XDel(w)).value);
    }
  }

  function PcAfter(result: StartResult, e: nat, at: nat, t: nat, now: nat): WorkerPc {
    match result
    case StartStarted => Started(e, at, t, now)
    case StartQuotaBusy => Idle
    case StartDuplicateOrTerminal => AckWait(e)
    case StartNotFound => AckWait(e)
  }

  ghost predicate ClaimedEntry(s: State, w: nat, e: nat, id: SubmissionId) {
    && w in s.workers && s.workers[w].Claimed? && s.workers[w].entry == e && s.workers[w].claimedAt <= s.now
    && e < |s.stream| && s.stream[e].submission == id
  }

  /** The start transaction's answer and the table it leaves are those of the machine's TryStart. */
  lemma TryStartIs(c: Config, s: State, w: nat, e: nat, id: SubmissionId, rows: Rows)
    requires ClaimedEntry(s, w, e, id)
    requires var result := StartOutcome(s.rows, id, c.maxRunning);
             rows == if result.StartStarted? then s.rows[id := StartedRow(s.rows[id], s.now)] else s.rows
    ensures Apply(c, s, TryStart(w, s.now)) == Some(s.(rows := rows, workers := s.workers[
              w := PcAfter(StartOutcome(s.rows, id, c.maxRunning), e, s.workers[w].claimedAt, s.now, s.now)]))
  {
  }

  lemma TickThen(c: Config, s: State, d: nat, l: Label, m: State)
    requires Apply(c, s.(now := s.now + d), l) == Some(m)
    ensures Exec(c, s, [Tick(d), l]) == Some(m)
  {
    ExecTwo(c, s, Tick(d), s.(now := s.now + d), l, m);
  }

  lemma LetGo(c: Config, s: State, ls: seq<Label>, m: State, w: nat, pc: WorkerPc)
    requires Exec(c, s, ls) == Some(m) && m.workers == s.workers[w := pc] && w in s.workers
    ensures Exec(c, s, ls + [Drop(w)]) == Some(m.(workers := s.workers[w := Idle]))
  {
    DropIs(c, m, w);
    assert m.workers[w := Idle] == s.workers[w := Idle];
    ExecSnoc(c, s, ls, Drop(w));
  }

  lemma GiveUp(c: Config, s: State, delta: nat, w: nat)
    requires w in s.workers
    ensures Exec(c, s, [Tick(delta), Drop(w)]) == Some(s.(now := s.now + delta, workers := s.workers[w := Idle]))
  {
    DropIs(c, s.(now := s.now + delta), w);
    TickThen(c, s, delta, Drop(w), s.(now := s.now + delta, workers := s.workers[w := Idle]));
  }

  ghost predicate OwnLabels(ls: seq<Label>, w: nat) {
    forall i :: 0 <= i < |ls| ==> OwnLabel(ls[i], w)
  }

  predicate NoTimeOut(ls: seq<Label>) { forall i :: 0 <= i < |ls| ==> !ls[i].TimeOut? }

  predicate OwnLabel(l: Label, w: nat) {
    l.Tick? || ((l.TryStart? || l.Finish? || l.TimeOut? || l.XAck? || l.XDel? || l.Drop?) && l.worker == w)
  }

  // ----- What one call of processOne comes to -----

  /** The row is started unless the start was refused or not committed, and then left so, finished or failed. */
  function RowsAfter(c: Config, rows: Rows, id: SubmissionId, now: nat, luck: Luck): Rows {
    if !StartOutcome(rows, id, c.maxRunning).StartStarted? || luck.start.BeforeCommit? then rows
    else
      var started := StartedRow(rows[id], now + luck.beforeStart);
      var end := now + luck.beforeStart + luck.beforeWrite;
      if luck.start.ReplyLost? || luck.write.BeforeCommit? then rows[id := started]
      else if luck.timesOut then rows[id := FailedRow(started, end)]
      else rows[id := FinishedRow(started, end)]
  }

  /** The call gets as far as the work itself. */
  predicate Attempts(c: Config, rows: Rows, id: SubmissionId, luck: Luck) {
    StartOutcome(rows, id, c.maxRunning).StartStarted? && luck.start.NoFault?
  }

  /** The entry is acknowledged if there was nothing to start, if the attempt timed out, or after a finish that was
      reported as this worker's own; never after an error of the start or of the finish, nor for a busy participant. */
  predicate Acknowledges(c: Config, rows: Rows, id: SubmissionId, luck: Luck) {
    match StartOutcome(rows, id, c.maxRunning)
    case StartStarted => luck.start.NoFault? && (luck.timesOut || luck.write.NoFault?)
    case StartQuotaBusy => false
    case StartDuplicateOrTerminal => !luck.start.BeforeCommit?
    case StartNotFound => !luck.start.BeforeCommit?
  }

  /** The row of a call that the participant's limit admits, field by field. */
  lemma AttemptSpelledOut(c: Config, rows: Rows, id: SubmissionId, now: nat, luck: Luck)
    requires id in rows && rows[id].status == Queued && |RunningOf(rows, rows[id].participant)| < c.maxRunning
    ensures var r, after := rows[id], RowsAfter(c, rows, id, now, luck);
            var start, end := now + luck.beforeStart, now + luck.beforeStart + luck.beforeWrite;
            && after.Keys == rows.Keys && (forall x :: x in rows && x != id ==> after[x] == rows[x])
            && after[id] ==
               match luck.start
               case BeforeCommit => r
               case ReplyLost => Row(r.participant, MockProcessing, Some(start), r.finishedAt, r.result)
               case NoFault =>
                 if luck.write.BeforeCommit? then Row(r.participant, MockProcessing, Some(start), r.finishedAt, r.result)
                 else if luck.timesOut then Row(r.participant, InternalError, Some(start), Some(end), r.result)
                 else Row(r.participant, Finished, Some(start), Some(end),
                          Some(RunResult(true, "", "Phase 1 mock runner: source accepted\n", "", 0, false)))
    ensures Acknowledges(c, rows, id, luck) <==>
            luck.start == NoFault && (luck.timesOut || luck.write == NoFault)
  {
  }

  /** A call that the row or the participant's limit turns away changes no row, and acknowledges all but a busy
      participant's entry. */
  lemma TurnedAwaySpelledOut(c: Config, rows: Rows, id: SubmissionId, now: nat, luck: Luck)
    requires id in rows && rows[id].status == Queued ==> |RunningOf(rows, rows[id].participant)| >= c.maxRunning
    ensures RowsAfter(c, rows, id, now, luck) == rows
    ensures Acknowledges(c, rows, id, luck) <==>
            luck.start != BeforeCommit && !(id in rows && rows[id].status == Queued)
  {
  }

  /** So no call acknowledges an entry whose row it leaves queued. */
  lemma AcknowledgedIsNotQueued(c: Config, rows: Rows, id: SubmissionId, now: nat, luck: Luck)
    requires Acknowledges(c, rows, id, luck)
    ensures var after := RowsAfter(c, rows, id, now, luck); id in after ==> !after[id].status.Queued?
  {
  }

  /** Without faults a call acknowledges exactly if the participant is not busy, and a started row ends terminal. */
  lemma FineCall(c: Config, rows: Rows, id: SubmissionId, now: nat, luck: Luck)
    requires luck.start.NoFault? && luck.write.NoFault?
    ensures Acknowledges(c, rows, id, luck) <==> !StartOutcome(rows, id, c.maxRunning).StartQuotaBusy?
    ensures var after := RowsAfter(c, rows, id, now, luck);
            Acknowledges(c, rows, id, luck) && id in after ==>
              after[id].status.Terminal() || (rows[id].status.MockProcessing? && after == rows)
  {
  }

  /** The call of TryStartSubmission: an error leaves the worker idle whether or not the start was committed. */
  method Begin(c: Config, db: Tables, q: Queue, w: nat, e: nat, id: SubmissionId, now: nat, luck: Luck, ghost s: State)
    returns (reply: StartReply, ghost ls: seq<Label>)
    requires c.Valid() && db.Valid() && AllWellFormed(q.messages) && ClaimedEntry(s, w, e, id)
    requires s == World(db, q, now, s.workers, s.dispatchers)
    modifies db`rows
    ensures db.Valid() && AllWellFormed(q.messages) && OwnLabels(ls, w) && NoTimeOut(ls)
    ensures var starts := StartOutcome(old(db.rows), id, c.maxRunning).StartStarted?;
            && (reply.StartFailed? <==> luck.start.BeforeCommit? || (luck.start.ReplyLost? && starts))
            && (reply.StartOk? ==> reply.result == StartOutcome(old(db.rows), id, c.maxRunning))
            && db.rows == if starts && !luck.start.BeforeCommit?
                          then old(db.rows)[id := StartedRow(old(db.rows)[id], now + luck.beforeStart)] else old(db.rows)
    ensures var pc := if reply.StartFailed? then Idle
                      else PcAfter(reply.result, e, s.workers[w].claimedAt, now + luck.beforeStart, now + luck.beforeStart);
            Exec(c, s, ls) == Some(World(db, q, now + luck.beforeStart, s.workers[w := pc], s.dispatchers))
  {
    var t := now + luck.beforeStart;
    ghost var s1 := s.(now := t);
    reply := db.TryStartSubmission(id, c.maxRunning, t, luck.start);
    if reply.StartFailed? && db.rows == s.rows {
      GiveUp(c, s, luck.beforeStart, w);
      ls := [Tick(luck.beforeStart), Drop(w)];
    } else {
      TryStartIs(c, s1, w, e, id, db.rows);
      ghost var m := Apply(c, s1, TryStart(w, t)).value;
      TickThen(c, s, luck.beforeStart, TryStart(w, t), m);
      ls := [Tick(luck.beforeStart), TryStart(w, t)];
      if reply.StartFailed? {
        LetGo(c, s, ls, m, w, m.workers[w]);
        ls := ls + [Drop(w)];
      }
    }
  }

  method Acknowledge(c: Config, db: Tables, q: Queue, w: nat, e: nat, fault: AckFault, now: nat, ghost s: State)
    returns (ghost ls: seq<Label>)
    requires q.Valid() && AllWellFormed(q.messages) && e < q.cursor && db.Valid()
    requires w in s.workers && s.workers[w] == AckWait(e) && s == World(db, q, now, s.workers, s.dispatchers)
    modifies q`messages
    ensures q.Valid() && AllWellFormed(q.messages) && OwnLabels(ls, w) && NoTimeOut(ls)
    ensures q.messages == AfterAck(old(q.messages), e, fault)
    ensures Exec(c, s, ls) == Some(World(db, q, now, s.workers[w := Idle], s.dispatchers))
  {
    AckRun(c, s, w, e, q.messages, fault);
    var _ := q.Ack(e, fault);
    ls := AckLabels(w, fault);
  }

  lemma TimeOutIs(c: Config, s: State, w: nat, e: nat, applied: bool, rows: Rows)
    requires w in s.workers && s.workers[w].Started? && s.workers[w].entry == e && e < |s.stream|
    requires var id := s.stream[e].submission;
             rows == if applied && id in s.rows && !s.rows[id].status.Terminal()
                     then s.rows[id := FailedRow(s.rows[id], s.now)] else s.rows
    ensures Apply(c, s, TimeOut(w, applied)) == Some(s.(rows := rows, workers := s.workers[w := AckWait(e)]))
  {
  }

  lemma FinishIs(c: Config, s: State, w: nat, e: nat, changed: bool, rows: Rows)
    requires w in s.workers && s.workers[w].Started? && s.workers[w].entry == e && e < |s.stream|
    requires var id := s.stream[e].submission;
             && (changed <==> id in s.rows && s.rows[id].status.MockProcessing?)
             && rows == if changed then s.rows[id := FinishedRow(s.rows[id], s.now)] else s.rows
    ensures Apply(c, s, Finish(w)) ==
            Some(s.(rows := rows, workers := s.workers[w := if changed then AckWait(e) else Idle]))
  {
  }

  ghost predicate StartedEntry(s: State, w: nat, e: nat, id: SubmissionId) {
    && w in s.workers && s.workers[w].Started? && s.workers[w].entry == e
    && e < |s.stream| && s.stream[e].submission == id
  }

  /** The second half of a call joined to its start. */
  lemma JoinStart(c: Config, s: State, ls: seq<Label>, m: State, rest: seq<Label>, w: nat, pc: WorkerPc, s': State)
    requires Exec(c, s, ls) == Some(m) && Exec(c, m, rest) == Some(s') && OwnLabels(ls, w) && OwnLabels(rest, w)
    requires m.workers == s.workers[w := pc] && s'.workers == m.workers[w := Idle]
    ensures Exec(c, s, ls + rest) == Some(s') && OwnLabels(ls + rest, w) && s'.workers == s.workers[w := Idle]
  {
    ExecJoin(c, s, ls, m, rest, s');
  }

  /** The end of a call that began in `s0`: the entry is acknowledged, or let go. */
  method AckIfOwn(c: Config, db: Tables, q: Queue, w: nat, e: nat, own: bool, fault: AckFault, now: nat,
                  ghost pc: WorkerPc, ghost s: State, ghost s0: State, ghost ls0: seq<Label>)
    returns (ghost ls: seq<Label>)
    requires q.Valid() && AllWellFormed(q.messages) && e < q.cursor && db.Valid()
    requires s == World(db, q, now, s.workers, s.dispatchers) && (own ==> pc == AckWait(e)) && w in s0.workers
    requires Exec(c, s0, ls0) == Some(s) && OwnLabels(ls0, w)
    requires s.workers == s0.workers[w := pc] && s.dispatchers == s0.dispatchers
    modifies q`messages
    ensures q.Valid() && AllWellFormed(q.messages) && OwnLabels(ls, w) && (NoTimeOut(ls0) ==> NoTimeOut(ls))
    ensures q.messages == if own then AfterAck(old(q.messages), e, fault) else old(q.messages)
    ensures Exec(c, s0, ls) == Some(World(db, q, now, s0.workers[w := Idle], s0.dispatchers))
  {
    if own {
      ghost var rest := Acknowledge(c, db, q, w, e, fault, now, s);
      JoinStart(c, s0, ls0, s, rest, w, pc, World(db, q, now, s.workers[w := Idle], s.dispatchers));
      ls := ls0 + rest;
    } else {
      LetGo(c, s0, ls0, s, w, pc);
      ls := ls0 + [Drop(w)];
    }
  }

  /** The timeout branch: the error of SetInternalError is ignored and the entry acknowledged all the same. */
  method Abandon(c: Config, db: Tables, q: Queue, w: nat, e: nat, id: SubmissionId, now: nat, luck: Luck, ghost s: State)
    returns (ghost ls: seq<Label>)
    requires db.Valid() && q.Valid() && AllWellFormed(q.messages) && e < q.cursor && StartedEntry(s, w, e, id)
    requires s == World(db, q, now, s.workers, s.dispatchers)
    modifies db`rows, q`messages
    ensures db.Valid() && q.Valid() && AllWellFormed(q.messages) && OwnLabels(ls, w)
    ensures db.rows == if !luck.write.BeforeCommit? && id in old(db.rows) && !old(db.rows)[id].status.Terminal()
                       then old(db.rows)[id := FailedRow(old(db.rows)[id], now + luck.beforeWrite)] else old(db.rows)
    ensures q.messages == AfterAck(old(q.messages), e, luck.ack)
    ensures Exec(c, s, ls) == Some(World(db, q, now + luck.beforeWrite, s.workers[w := Idle], s.dispatchers))
  {
    hide Apply;
    var t := now + luck.beforeWrite;
    var _ := db.SetInternalError(id, t, luck.write);
    ghost var l := TimeOut(w, !luck.write.BeforeCommit?);
    TimeOutIs(c, s.(now := t), w, e, l.applied, db.rows);
    ghost var m := World(db, q, t, s.workers[w := AckWait(e)], s.dispatchers);
    TickThen(c, s, luck.beforeWrite, l, m);
    ls := AckIfOwn(c, db, q, w, e, true, luck.ack, t, AckWait(e), m, s, [Tick(luck.beforeWrite), l]);
  }

  /** The normal branch: the entry is acknowledged only if this worker's UPDATE changed the row. */
  method Conclude(c: Config, db: Tables, q: Queue, w: nat, e: nat, id: SubmissionId, now: nat, luck: Luck, ghost s: State)
    returns (ghost ls: seq<Label>)
    requires db.Valid() && q.Valid() && AllWellFormed(q.messages) && e < q.cursor && StartedEntry(s, w, e, id)
    requires s == World(db, q, now, s.workers, s.dispatchers)
    modifies db`rows, q`messages
    ensures db.Valid() && q.Valid() && AllWellFormed(q.messages) && OwnLabels(ls, w) && NoTimeOut(ls)
    ensures var processing := id in old(db.rows) && old(db.rows)[id].status.MockProcessing?;
            && db.rows == (if processing && !luck.write.BeforeCommit?
                           then old(db.rows)[id := FinishedRow(old(db.rows)[id], now + luck.beforeWrite)] else old(db.rows))
            && q.messages == (if processing && luck.write.NoFault?
                              then AfterAck(old(q.messages), e, luck.ack) else old(q.messages))
    ensures Exec(c, s, ls) == Some(World(db, q, now + luck.beforeWrite, s.workers[w := Idle], s.dispatchers))
  {
    hide Apply;
    var t := now + luck.beforeWrite;
    ghost var s1 := s.(now := t);
    var u := db.FinishSubmissionConditional(id, MOCK_RESULT, t, luck.write);
    if luck.write.BeforeCommit? {
      GiveUp(c, s, luck.beforeWrite, w);
      ls := [Tick(luck.beforeWrite), Drop(w)];
      return;
    }
    ghost var changed := id in s.rows && s.rows[id].status.MockProcessing?;
    FinishIs(c, s1, w, e, changed, db.rows);
    ghost var m := World(db, q, t, s.workers[w := if changed then AckWait(e) else Idle], s.dispatchers);
    TickThen(c, s, luck.beforeWrite, Finish(w), m);
    ls := [Tick(luck.beforeWrite), Finish(w)];
    ls := AckIfOwn(c, db, q, w, e, u.UpdateOk? && u.changed, luck.ack, t, m.workers[w], m, s, ls);
  }

  /** The rows and the acknowledgement that follow a start which was answered with `result`. */
  function RowsThen(rows: Rows, id: SubmissionId, result: StartResult, end: nat, luck: Luck): Rows
    requires result.StartStarted? ==> id in rows
  {
    if !result.StartStarted? || luck.write.BeforeCommit? then rows
    else rows[id := if luck.timesOut then FailedRow(rows[id], end) else FinishedRow(rows[id], end)]
  }

  /** What follows an answered start: an acknowledgement if there was nothing to start, else the hard timeout or the
      work, whichever comes first. */
  method Follow(c: Config, db: Tables, q: Queue, w: nat, e: nat, id: SubmissionId, result: StartResult, now: nat,
                luck: Luck, ghost s: State)
    returns (later: nat, ghost ls: seq<Label>)
    requires db.Valid() && q.Valid() && AllWellFormed(q.messages) && e < q.cursor && !result.StartQuotaBusy?
    requires s == World(db, q, now, s.workers, s.dispatchers)
    requires if result.StartStarted? then StartedEntry(s, w, e, id) && id in db.rows && db.rows[id].status.MockProcessing?
             else w in s.workers && s.workers[w] == AckWait(e)
    modifies db`rows, q`messages
    ensures db.Valid() && q.Valid() && AllWellFormed(q.messages) && OwnLabels(ls, w)
    ensures !luck.timesOut ==> NoTimeOut(ls)
    ensures later == now + (if result.StartStarted? then luck.beforeWrite else 0)
    ensures db.rows == RowsThen(old(db.rows), id, result, later, luck)
    ensures q.messages == if !result.StartStarted? || luck.timesOut || luck.write.NoFault?
                          then AfterAck(old(q.messages), e, luck.ack) else old(q.messages)
    ensures Exec(c, s, ls) == Some(World(db, q, later, s.workers[w := Idle], s.dispatchers))
  {
    later := now;
    if !result.StartStarted? {
      ls := Acknowledge(c, db, q, w, e, luck.ack, now, s);
      return;
    }
    later := now + luck.beforeWrite;
    if luck.timesOut {
      ls := Abandon(c, db, q, w, e, id, now, luck, s);
    } else {
      ls := Conclude(c, db, q, w, e, id, now, luck, s);
    }
  }

  /** Follow, as the rest of the call that began in `s0`. */
  method FollowStart(c: Config, db: Tables, q: Queue, w: nat, e: nat, id: SubmissionId, result: StartResult, now: nat,
                     luck: Luck, ghost pc: WorkerPc, ghost s: State, ghost s0: State, ghost ls0: seq<Label>)
    returns (later: nat, ghost ls: seq<Label>)
    requires db.Valid() && q.Valid() && AllWellFormed(q.messages) && e < q.cursor && !result.StartQuotaBusy?
    requires s == World(db, q, now, s.workers, s.dispatchers)
    requires if result.StartStarted? then StartedEntry(s, w, e, id) && id in db.rows && db.rows[id].status.MockProcessing?
             else w in s.workers && s.workers[w] == AckWait(e)
    requires Exec(c, s0, ls0) == Some(s) && OwnLabels(ls0, w)
    requires s.workers == s0.workers[w := pc] && s.dispatchers == s0.dispatchers
    modifies db`rows, q`messages
    ensures db.Valid() && q.Valid() && AllWellFormed(q.messages) && OwnLabels(ls, w)
    ensures !luck.timesOut && NoTimeOut(ls0) ==> NoTimeOut(ls)
    ensures later == now + (if result.StartStarted? then luck.beforeWrite else 0)
    ensures db.rows == RowsThen(old(db.rows), id, result, later, luck)
    ensures q.messages == if !result.StartStarted? || luck.timesOut || luck.write.NoFault?
                          then AfterAck(old(q.messages), e, luck.ack) else old(q.messages)
    ensures Exec(c, s0, ls) == Some(World(db, q, later, s0.workers[w := Idle], s0.dispatchers))
  {
    ghost var rest;
    later, rest := Follow(c, db, q, w, e, id, result, now, luck, s);
    JoinStart(c, s0, ls0, s, rest, w, pc, World(db, q, later, s.workers[w := Idle], s.dispatchers));
    ls := ls0 + rest;
  }

  /** The second half of a call after its start, in one. */
  lemma RowsInOne(c: Config, rows: Rows, id: SubmissionId, now: nat, luck: Luck, reply: StartReply, started: Rows)
    requires var starts := StartOutcome(rows, id, c.maxRunning).StartStarted?;
             && (reply.StartFailed? <==> luck.start.BeforeCommit? || (luck.start.ReplyLost? && starts))
             && (reply.StartOk? ==> reply.result == StartOutcome(rows, id, c.maxRunning))
             && started == if starts && !luck.start.BeforeCommit?
                           then rows[id := StartedRow(rows[id], now + luck.beforeStart)] else rows
    ensures reply.StartFailed? || reply.result.StartQuotaBusy? ==>
              started == RowsAfter(c, rows, id, now, luck) && !Acknowledges(c, rows, id, luck)
    ensures reply.StartOk? && !reply.result.StartQuotaBusy? ==>
              && RowsThen(started, id, reply.result, now + luck.beforeStart + luck.beforeWrite, luck)
                 == RowsAfter(c, rows, id, now, luck)
              && (Acknowledges(c, rows, id, luck) <==>
                    !reply.result.StartStarted? || luck.timesOut || luck.write.NoFault?)
  {
  }

  /** processOne: whatever it meets, it is a run of the machine by this worker alone that leaves the worker idle. */
  method ProcessOne(c: Config, db: Tables, q: Queue, w: nat, e: nat, now: nat, luck: Luck, ghost s: State)
    returns (later: nat, ghost ls: seq<Label>)
    requires c.Valid() && db.Valid() && q.Valid() && AllWellFormed(q.messages) && e < q.cursor
    requires s == World(db, q, now, s.workers, s.dispatchers)
    requires ClaimedEntry(s, w, e, SubmissionId(q.messages[e].values[SUBMISSION_FIELD]))
    modifies db`rows, q`messages
    ensures db.Valid() && q.Valid() && AllWellFormed(q.messages) && OwnLabels(ls, w)
    ensures var id := SubmissionId(old(q.messages)[e].values[SUBMISSION_FIELD]);
            && later == now + luck.beforeStart + (if Attempts(c, old(db.rows), id, luck) then luck.beforeWrite else 0)
            && db.rows == RowsAfter(c, old(db.rows), id, now, luck)
            && q.messages == (if Acknowledges(c, old(db.rows), id, luck)
                              then AfterAck(old(q.messages), e, luck.ack) else old(q.messages))
    ensures !luck.timesOut ==> NoTimeOut(ls)
    ensures Exec(c, s, ls) == Some(World(db, q, later, s.workers[w := Idle], s.dispatchers))
    // The normal course, field by field: a submission with room for it is finished with the mock result.
    ensures var id := SubmissionId(old(q.messages)[e].values[SUBMISSION_FIELD]);
            luck.start == NoFault && luck.write == NoFault && !luck.timesOut
            && id in old(db.rows) && old(db.rows)[id].status == Queued
            && |RunningOf(old(db.rows), old(db.rows)[id].participant)| < c.maxRunning ==>
              && db.rows == old(db.rows)[
                   id := Row(old(db.rows)[id].participant, Finished, Some(now + luck.beforeStart), Some(later),
                             Some(RunResult(true, "", "Phase 1 mock runner: source accepted\n", "", 0, false)))]
              && later == now + luck.beforeStart + luck.beforeWrite
              && (luck.ack == AckFine ==> q.messages == old(q.messages)[e := old(q.messages)[e].(state := Gone)])
  {
    hide Apply;
    var id := SubmissionId(q.messages[e].values[SUBMISSION_FIELD]);
    var reply;
    ghost var rows := db.rows;
    reply, ls := Begin(c, db, q, w, e, id, now, luck, s);
    RowsInOne(c, rows, id, now, luck, reply, db.rows);
    if id in rows && rows[id].status == Queued && |RunningOf(rows, rows[id].participant)| < c.maxRunning {
      AttemptSpelledOut(c, rows, id, now, luck);
    }
    later := now + luck.beforeStart;
    if reply.StartFailed? || reply.result.StartQuotaBusy? { return; }
    ghost var pc := PcAfter(reply.result, e, s.workers[w].claimedAt, later, later);
    ghost var m := World(db, q, later, s.workers[w := pc], s.dispatchers);
    assert Exec(c, s, ls) == Some(m);
    later, ls := FollowStart(c, db, q, w, e, id, reply.result, later, luck, pc, m, s, ls);
  }
}
