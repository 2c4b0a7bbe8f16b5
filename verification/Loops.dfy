/**
 One round of each of the mock worker's loops as a run of the lifecycle machine.
 */
module Loops {
  import opened Protocol
  import opened Moves
  import opened Database
  import opened StreamQueue
  import opened Worker

  // ----- consumeLoop -----

  lemma ClaimIs(c: Config, s: State, w: nat, messages: seq<Message>)
    requires AllWellFormed(messages) && s.stream == StreamOf(messages) && s.cursor < |messages|
    requires w in s.workers && s.workers[w].Idle?
    ensures var after := messages[s.cursor := messages[s.cursor].(state := Pending(w, s.now))];
            && AllWellFormed(after)
            && Apply(c, s, Claim(w)) == Some(s.(stream := StreamOf(after), cursor := s.cursor + 1,
                                               workers := s.workers[w := Claimed(s.cursor, s.now)]))
  {
    StreamUpdate(messages, s.cursor, Pending(w, s.now));
  }

  lemma AutoClaimIs(c: Config, s: State, w: nat, e: nat, messages: seq<Message>)
    requires AllWellFormed(messages) && s.stream == StreamOf(messages) && e < |messages|
    requires w in s.workers && s.workers[w].Idle? && FirstStale(c, s, e)
    ensures var after := messages[e := messages[e].(state := Pending(w, s.now))];
            && AllWellFormed(after)
            && Apply(c, s, AutoClaim(w, e)) == Some(s.(stream := StreamOf(after),
                                                      workers := s.workers[w := Claimed(e, s.now)]))
  {
    StreamUpdate(messages, e, Pending(w, s.now));
  }

  /** What a worker that asks for work is to get: a stale entry within the scan, else a new one. */
  ghost predicate NextEntry(c: Config, s: State, e: nat) {
    if NoStale(c, s) then e == s.cursor < |s.stream| else FirstStale(c, s, e)
  }

  lemma ScanAgrees(c: Config, q: Queue, s: State, e: nat)
    requires q.Valid() && AllWellFormed(q.messages) && s.stream == StreamOf(q.messages)
    ensures q.InScan(e, c.staleAfter, s.now) <==> StaleInScan(c, s, e)
  {
    if e < |q.messages| {
      PendingAgrees(q.messages, e);
    }
  }

  /** Claiming entry `e`, as labels. */
  ghost function TakeLabel(c: Config, s: State, w: nat, e: nat): Label {
    if NoStale(c, s) then Claim(w) else AutoClaim(w, e)
  }

  /** A claim, and the letting go of it if its reply was lost: the entry is then pending, and the worker without it. */
  lemma ClaimLabels(c: Config, s: State, w: nat, l: Label, m: State, replied: bool) returns (ls: seq<Label>)
    requires Apply(c, s, l) == Some(m) && w in s.workers && s.workers[w].Idle?
    requires w in m.workers && m.workers == s.workers[w := m.workers[w]]
    ensures ls == if replied then [l] else [l, Drop(w)]
    ensures Exec(c, s, ls) == Some(if replied then m else m.(workers := s.workers))
  {
    if replied {
      ls := [l];
      ExecOne(c, s, l);
    } else {
      ls := [l, Drop(w)];
      DropIs(c, m, w);
      assert m.workers[w := Idle] == s.workers;
      ExecTwo(c, s, l, m, Drop(w), m.(workers := s.workers));
    }
  }

  /** XAUTOCLAIM by worker `w`. */
  method ReclaimStale(c: Config, db: Tables, q: Queue, w: nat, now: nat, command: Command, ghost s: State)
    returns (job: JobReply, ghost ls: seq<Label>)
    requires db.Valid() && q.Valid() && AllWellFormed(q.messages) && w in s.workers && s.workers[w].Idle?
    requires s == World(db, q, now, s.workers, s.dispatchers)
    modifies q`messages
    ensures q.Valid() && db.Valid() && AllWellFormed(q.messages)
    ensures job.NoJob? <==> command.Answered? && NoStale(c, s)
    ensures job.Job? <==> command.Answered? && !NoStale(c, s)
    ensures job.Job? ==> FirstStale(c, s, job.entry) && ls == [AutoClaim(w, job.entry)]
    ensures !job.Job? ==>
      if NoStale(c, s) || command.Unapplied? then ls == []
      else exists e :: FirstStale(c, s, e) && ls == [AutoClaim(w, e), Drop(w)]
    ensures ls == [] ==> q.messages == old(q.messages)
    ensures job.Job? ==> Hands(old(q.messages), w, now, q.messages, job)
    ensures Exec(c, s, ls) == Some(World(db, q, now, if job.Job? then s.workers[w := Claimed(job.entry, now)] else s.workers,
                                         s.dispatchers))
  {
    ghost var before := q.messages;
    forall e: nat ensures q.InScan(e, c.staleAfter, now) <==> StaleInScan(c, s, e) { ScanAgrees(c, q, s, e); }
    label Before:
    job := q.ClaimStale(w, c.staleAfter, now, command, AckFine);
    ls := [];
    if !NoStale(c, s) && !command.Unapplied? {
      ghost var e := LeastStale(c, s);
      assert old@Before(q.InScan(e, c.staleAfter, now));
      assert HasBothFields(before[e].values);
      AutoClaimIs(c, s, w, e, before);
      ls := ClaimLabels(c, s, w, AutoClaim(w, e), Apply(c, s, AutoClaim(w, e)).value, job.Job?);
    }
  }

  /** The job that was handed out, and the message it came from, now pending with `w`. */
  ghost predicate Hands(before: seq<Message>, w: nat, now: nat, after: seq<Message>, job: JobReply)
    requires job.Job?
  {
    && job.entry < |before| && after == Taken(before, job.entry, w, now)
    && JobOf(before, job.entry, job)
  }

  /** XREADGROUP by worker `w`. */
  method ClaimNew(c: Config, db: Tables, q: Queue, w: nat, now: nat, command: Command, ghost s: State)
    returns (job: JobReply, ghost ls: seq<Label>)
    requires db.Valid() && q.Valid() && AllWellFormed(q.messages) && w in s.workers && s.workers[w].Idle?
    requires s == World(db, q, now, s.workers, s.dispatchers)
    modifies q
    ensures q.Valid() && db.Valid() && AllWellFormed(q.messages)
    ensures job.NoJob? <==> command.Answered? && s.cursor == |s.stream|
    ensures job.Job? <==> command.Answered? && s.cursor < |s.stream|
    ensures job.Job? ==> job.entry == s.cursor && ls == [Claim(w)]
    ensures !job.Job? ==> ls == if s.cursor == |s.stream| || command.Unapplied? then [] else [Claim(w), Drop(w)]
    ensures ls == [] ==> q.messages == old(q.messages) && q.cursor == old(q.cursor)
    ensures job.Job? ==> Hands(old(q.messages), w, now, q.messages, job)
    ensures Exec(c, s, ls) == Some(World(db, q, now, if job.Job? then s.workers[w := Claimed(job.entry, now)] else s.workers,
                                         s.dispatchers))
  {
    ghost var before := q.messages;
    job := q.Claim(w, now, command, AckFine);
    ls := [];
    if s.cursor < |s.stream| && !command.Unapplied? {
      assert HasBothFields(before[s.cursor].values);
      ClaimIs(c, s, w, before);
      ls := ClaimLabels(c, s, w, Claim(w), Apply(c, s, Claim(w)).value, job.Job?);
    }
  }

  /** No claim takes effect: the command that decides was not applied, or there was nothing to claim. */
  ghost predicate NothingClaimed(c: Config, s: State, reclaim: Command, claim: Command) {
    if NoStale(c, s) then !reclaim.Answered? || claim.Unapplied? || s.cursor == |s.stream| else reclaim.Unapplied?
  }

  /** Stale messages first, and new ones only if the scan found none. Both commands may fail or lose their reply. */
  method Take(c: Config, db: Tables, q: Queue, w: nat, now: nat, reclaim: Command, claim: Command, ghost s: State)
    returns (job: JobReply, ghost ls: seq<Label>)
    requires db.Valid() && q.Valid() && AllWellFormed(q.messages) && w in s.workers && s.workers[w].Idle?
    requires s == World(db, q, now, s.workers, s.dispatchers)
    modifies q
    ensures q.Valid() && db.Valid() && AllWellFormed(q.messages)
    ensures job.NoJob? <==> reclaim.Answered? && claim.Answered? && NoStale(c, s) && s.cursor == |s.stream|
    ensures job.Job? <==> reclaim.Answered? && if NoStale(c, s) then claim.Answered? && s.cursor < |s.stream| else true
    ensures job.Job? ==>
      && NextEntry(c, s, job.entry) && ls == [TakeLabel(c, s, w, job.entry)] && job.entry < q.cursor
      && Hands(old(q.messages), w, now, q.messages, job)
    ensures !job.Job? ==> ls == [] || exists e :: NextEntry(c, s, e) && ls == [TakeLabel(c, s, w, e), Drop(w)]
    ensures ls == [] <==> NothingClaimed(c, s, reclaim, claim)
    ensures ls == [] ==> q.messages == old(q.messages) && q.cursor == old(q.cursor)
    ensures Exec(c, s, ls) == Some(World(db, q, now, if job.Job? then s.workers[w := Claimed(job.entry, now)] else s.workers,
                                         s.dispatchers))
  {
    job, ls := ReclaimStale(c, db, q, w, now, reclaim, s);
    if job.NoJob? {
      job, ls := ClaimNew(c, db, q, w, now, claim, s);
      assert !job.Job? && ls != [] ==> ls == [TakeLabel(c, s, w, s.cursor), Drop(w)];
    } else if !job.Job? && ls != [] {
      ghost var e: nat :| FirstStale(c, s, e) && ls == [AutoClaim(w, e), Drop(w)];
      assert ls == [TakeLabel(c, s, w, e), Drop(w)];
    }
  }

  /** One round of consumeLoop: nothing but the claim happens unless there is a job, and then exactly one call of
      processOne, on the entry that was next. */
  method ConsumeRound(
    c: Config, db: Tables, q: Queue, w: nat, now: nat, reclaim: Command, claim: Command, luck: Luck, ghost s: State)
    returns (job: JobReply, later: nat, ghost ls: seq<Label>)
    requires c.Valid() && db.Valid() && q.Valid() && AllWellFormed(q.messages) && w in s.workers && s.workers[w].Idle?
    requires s == World(db, q, now, s.workers, s.dispatchers)
    modifies db`rows, q
    ensures db.Valid() && q.Valid() && AllWellFormed(q.messages) && now <= later
    ensures job.NoJob? <==> reclaim.Answered? && claim.Answered? && NoStale(c, s) && s.cursor == |s.stream|
    ensures job.Job? <==> reclaim.Answered? && if NoStale(c, s) then claim.Answered? && s.cursor < |s.stream| else true
    ensures job.Job? ==>
      && NextEntry(c, s, job.entry) && JobOf(old(q.messages), job.entry, job)
      && var id := SubmissionId(job.submission);
         var taken := Taken(old(q.messages), job.entry, w, now);
         && db.rows == RowsAfter(c, old(db.rows), id, now, luck)
         && q.messages == (if Acknowledges(c, old(db.rows), id, luck) then AfterAck(taken, job.entry, luck.ack) else taken)
    ensures !job.Job? ==>
      && db.rows == old(db.rows) && later == now
      && (ls == [] <==> NothingClaimed(c, s, reclaim, claim))
      && (ls == [] || exists e :: NextEntry(c, s, e) && ls == [TakeLabel(c, s, w, e), Drop(w)])
    ensures !luck.timesOut ==> NoTimeOut(ls)
    ensures Exec(c, s, ls) == Some(World(db, q, later, s.workers, s.dispatchers))
  {
    later := now;
    job, ls := Take(c, db, q, w, now, reclaim, claim, s);
    if !job.Job? { return; }
    ghost var m := World(db, q, now, s.workers[w := Claimed(job.entry, now)], s.dispatchers);
    assert m.workers[w := Idle] == s.workers;
    ghost var rest;
    later, rest := ProcessOne(c, db, q, w, job.entry, now, luck, m);
    ExecJoin(c, s, ls, m, rest, World(db, q, later, s.workers, s.dispatchers));
    ls := ls + rest;
  }

  // ----- recoveryLoop -----

  lemma RecoverIs(c: Config, s: State, id: SubmissionId, ev: nat, before: nat)
    requires StaleRow(s, id, before) && before + c.staleAfter <= s.now && ev !in s.outbox
    ensures Apply(c, s, Recover(id, ev, before, s.now)) ==
            Some(s.(rows := s.rows[id := RequeuedRow(s.rows[id])], outbox := s.outbox[ev := NewEvent(id, s.now)]))
  {
  }

  ghost function StaleNow(c: Config, s: State): set<SubmissionId> {
    set id | id in s.rows && s.rows[id].status.MockProcessing? && s.rows[id].startedAt.Some?
             && s.rows[id].startedAt.value + c.staleAfter <= s.now
  }

  /** Those of the listed rows whose recovery is committed. */
  function Committed(ids: seq<SubmissionId>, faults: nat -> Fault): seq<SubmissionId> {
    if ids == [] then []
    else
      var k := |ids| - 1;
      Committed(ids[..k], faults) + (if faults(k).BeforeCommit? then [] else [ids[k]])
  }

  lemma {:induction false} CommittedAll(ids: seq<SubmissionId>, faults: nat -> Fault)
    requires forall i :: faults(i).NoFault?
    ensures Committed(ids, faults) == ids
    decreases |ids|
  {
    if ids != [] {
      CommittedAll(ids[..|ids| - 1], faults);
    }
  }

  lemma {:induction false} CommittedFrom(ids: seq<SubmissionId>, faults: nat -> Fault)
    ensures forall id :: id in Committed(ids, faults) ==> id in ids
    decreases |ids|
  {
    if ids != [] {
      CommittedFrom(ids[..|ids| - 1], faults);
    }
  }

  /** The oldest stale rows, oldest first, up to the limit. */
  ghost predicate Listed(c: Config, s: State, ids: seq<SubmissionId>, limit: nat) {
    && |ids| == (if |StaleNow(c, s)| < limit then |StaleNow(c, s)| else limit)
    && (forall i :: 0 <= i < |ids| ==> ids[i] in StaleNow(c, s))
    && (forall i, j :: 0 <= i < j < |ids| ==>
          ids[i] != ids[j] && s.rows[ids[i]].startedAt.value <= s.rows[ids[j]].startedAt.value)
    && (forall id, i :: id in StaleNow(c, s) && id !in ids && 0 <= i < |ids| ==>
          s.rows[ids[i]].startedAt.value <= s.rows[id].startedAt.value)
  }

  /** From `rows` and `outbox` to `rows'` and `outbox'` exactly the rows `ids` went back to the queue, each with an event
      of its own. */
  ghost predicate Requeued(rows: Rows, outbox: Outbox, rows': Rows, outbox': Outbox, ids: seq<SubmissionId>, now: nat) {
    && rows'.Keys == rows.Keys
    && (forall id :: id in rows ==> rows'[id] == if id in ids then RequeuedRow(rows[id]) else rows[id])
    && (forall ev :: ev in outbox ==> ev in outbox' && outbox'[ev] == outbox[ev])
    && |outbox'| == |outbox| + |ids|
    && (forall id :: id in ids ==> HasNewEvent(outbox, outbox', id, now))
  }

  ghost predicate HasNewEvent(outbox: Outbox, outbox': Outbox, id: SubmissionId, now: nat) {
    exists ev :: ev in outbox' && ev !in outbox && outbox'[ev] == NewEvent(id, now)
  }

  lemma RequeueOne(rows: Rows, outbox: Outbox, rows': Rows, outbox': Outbox, ids: seq<SubmissionId>, now: nat,
                   id: SubmissionId, ev: nat)
    requires Requeued(rows, outbox, rows', outbox', ids, now) && id in rows' && id !in ids && ev !in outbox'
    ensures Requeued(rows, outbox, rows'[id := RequeuedRow(rows'[id])], outbox'[ev := NewEvent(id, now)], ids + [id], now)
  {
    var after := outbox'[ev := NewEvent(id, now)];
    forall x | x in ids + [id] ensures HasNewEvent(outbox, after, x, now) {
      if x in ids {
        assert HasNewEvent(outbox, outbox', x, now);
        var e :| e in outbox' && e !in outbox && outbox'[e] == NewEvent(x, now);
        assert after[e] == NewEvent(x, now);
      } else {
        assert after[ev] == NewEvent(x, now);
      }
    }
  }

  /** One round of recoveryLoop: exactly the oldest stale rows go back to the queue, each with its event; an error on
      one row does not stop the others. */
  method RecoveryRound(
    c: Config, db: Tables, q: Queue, now: nat, limit: nat, listFails: bool, faults: nat -> Fault, ghost s: State)
    returns (ids: seq<SubmissionId>, ghost ls: seq<Label>)
    requires c.Valid() && db.Valid() && AllWellFormed(q.messages) && s == World(db, q, now, s.workers, s.dispatchers)
    modifies db
    ensures db.Valid() && AllWellFormed(q.messages)
    ensures if listFails then ids == [] else Listed(c, s, ids, limit)
    ensures Requeued(old(db.rows), old(db.outbox), db.rows, db.outbox, Committed(ids, faults), now)
    ensures Exec(c, s, ls) == Some(World(db, q, now, s.workers, s.dispatchers))
    ensures forall i :: 0 <= i < |ls| ==> ls[i].Recover?
  {
    ls, ids := [], [];
    if listFails || now < c.staleAfter { return; }
    var before := now - c.staleAfter;
    assert db.StaleSet(before) == StaleNow(c, s);
    ids := db.ListStaleProcessing(before, limit);
    assert Listed(c, s, ids, limit);
    ls := RecoverEach(c, db, q, now, ids, before, faults, s);
  }

  /** The loop over the listed rows. */
  method RecoverEach(c: Config, db: Tables, q: Queue, now: nat, ids: seq<SubmissionId>, before: nat,
                     faults: nat -> Fault, ghost s: State)
    returns (ghost ls: seq<Label>)
    requires db.Valid() && AllWellFormed(q.messages) && s == World(db, q, now, s.workers, s.dispatchers)
    requires before + c.staleAfter <= now && forall i :: 0 <= i < |ids| ==> StaleRow(s, ids[i], before)
    requires forall i, j :: 0 <= i < j < |ids| ==> ids[i] != ids[j]
    modifies db
    ensures db.Valid() && AllWellFormed(q.messages)
    ensures Requeued(old(db.rows), old(db.outbox), db.rows, db.outbox, Committed(ids, faults), now)
    ensures Exec(c, s, ls) == Some(World(db, q, now, s.workers, s.dispatchers))
    ensures forall i :: 0 <= i < |ls| ==> ls[i].Recover?
  {
    ls := [];
    for i := 0 to |ids|
      invariant db.Valid() && AllWellFormed(q.messages)
      invariant Exec(c, s, ls) == Some(World(db, q, now, s.workers, s.dispatchers))
      invariant forall j :: 0 <= j < |ls| ==> ls[j].Recover?
      invariant Requeued(s.rows, s.outbox, db.rows, db.outbox, Committed(ids[..i], faults), now)
    {
      CommittedNext(ids, i, faults);
      ls := RecoverListed(c, db, q, now, ids[i], before, faults(i), Committed(ids[..i], faults), s, ls);
    }
    assert ids[..|ids|] == ids;
  }

  lemma CommittedNext(ids: seq<SubmissionId>, i: nat, faults: nat -> Fault)
    requires i < |ids| && forall j :: 0 <= j < i ==> ids[j] != ids[i]
    ensures ids[i] !in Committed(ids[..i], faults)
    ensures Committed(ids[..i + 1], faults) ==
            Committed(ids[..i], faults) + (if faults(i).BeforeCommit? then [] else [ids[i]])
  {
    CommittedFrom(ids[..i], faults);
    assert ids[..i + 1][..i] == ids[..i];
  }

  /** RecoverStaleSubmission on a listed row, after the rows `done`. */
  method RecoverListed(c: Config, db: Tables, q: Queue, now: nat, id: SubmissionId, before: nat, fault: Fault,
                       ghost done: seq<SubmissionId>, ghost s: State, ghost ls: seq<Label>)
    returns (ghost ls': seq<Label>)
    requires db.Valid() && AllWellFormed(q.messages) && before + c.staleAfter <= now
    requires Exec(c, s, ls) == Some(World(db, q, now, s.workers, s.dispatchers))
    requires Requeued(s.rows, s.outbox, db.rows, db.outbox, done, now) && id !in done && StaleRow(s, id, before)
    requires forall j :: 0 <= j < |ls| ==> ls[j].Recover?
    modifies db
    ensures db.Valid()
    ensures Exec(c, s, ls') == Some(World(db, q, now, s.workers, s.dispatchers))
    ensures Requeued(s.rows, s.outbox, db.rows, db.outbox, done + (if fault.BeforeCommit? then [] else [id]), now)
    ensures forall j :: 0 <= j < |ls'| ==> ls'[j].Recover?
  {
    ghost var m := World(db, q, now, s.workers, s.dispatchers);
    ghost var l := Recover(id, db.nextEvent, before, now);
    RecoverIs(c, m, id, l.event, before);
    RequeueOne(s.rows, s.outbox, db.rows, db.outbox, done, now, id, l.event);
    var _ := db.RecoverStaleSubmission(id, before, now, fault);
    ls' := ls;
    if !fault.BeforeCommit? {
      ExecSnoc(c, s, ls, l);
      ls' := ls + [l];
    } else {
      assert done + [] == done;
    }
  }

  // ----- outboxLoop -----

  lemma StreamAppend(messages: seq<Message>, m: Message)
    requires AllWellFormed(messages) && HasBothFields(m.values)
    ensures AllWellFormed(messages + [m]) && StreamOf(messages + [m]) == StreamOf(messages) + [EntryOf(m)]
  {
    assert AllWellFormed(messages + [m]);
  }

  lemma ThreeSteps(c: Config, s: State, l1: Label, m1: State, l2: Label, m2: State, l3: Label, s': State)
    requires Apply(c, s, l1) == Some(m1) && Apply(c, m1, l2) == Some(m2) && Apply(c, m2, l3) == Some(s')
    ensures Exec(c, s, [l1, l2] + [l3]) == Some(s')
  {
    ExecTwo(c, s, l1, m1, l2, m2);
    ExecSnoc(c, s, [l1, l2], l3);
  }

  lemma PickIs(c: Config, s: State, d: nat, ev: nat)
    requires d in s.dispatchers && s.dispatchers[d].Resting? && !EventLocked(s, ev)
    requires Ready(s, ev, s.now) && s.outbox[ev].submission in s.rows
    ensures Apply(c, s, Pick(d, ev, s.now)) == Some(s.(dispatchers := s.dispatchers[d := Picked(ev, s.now)]))
  {
  }

  /** The end of the dispatcher's transaction. */
  function Settle(d: nat, replied: bool, fault: Fault): Label {
    if fault.BeforeCommit? then DropDispatch(d) else if replied then MarkDelivered(d) else MarkFailed(d)
  }

  /** The outbox after a round that selected `ev`. */
  function AfterRound(c: Config, outbox: Outbox, ev: nat, now: nat, answered: bool, fault: Fault): Outbox
    requires ev in outbox
  {
    var e := outbox[ev];
    if fault.BeforeCommit? then outbox
    else if answered then outbox[ev := e.(delivered := true)]
    else outbox[ev := e.(attempts := e.attempts + 1,
                         availableAt := now + StoredDelay(e.attempts, c.maxBackoff, c.halfUp))]
  }

  lemma SettleIs(c: Config, s: State, d: nat, ev: nat, replied: bool, fault: Fault, outbox: Outbox)
    requires d in s.dispatchers && ev in s.outbox
    requires s.dispatchers[d] == if replied then Sent(ev, s.now) else Refused(ev, s.now)
    requires outbox == AfterRound(c, s.outbox, ev, s.now, replied, fault)
    ensures Apply(c, s, Settle(d, replied, fault)) ==
            Some(s.(outbox := outbox, dispatchers := s.dispatchers[d := Resting]))
  {
  }

  lemma SendIs(c: Config, s: State, d: nat, ev: nat, l: Label, s': State)
    requires d in s.dispatchers && s.dispatchers[d] == Picked(ev, s.now) && ev in s.outbox && s.outbox[ev].submission in s.rows
    requires l.Send? && l.dispatcher == d && (l.replied ==> l.added)
    requires s' == s.(stream := s'.stream,
                      dispatchers := s.dispatchers[d := if l.replied then Sent(ev, s.now) else Refused(ev, s.now)])
    requires var id := s.outbox[ev].submission;
             s'.stream == if l.added then s.stream + [Entry(id, s.rows[id].participant, New)] else s.stream
    ensures Apply(c, s, l) == Some(s')
  {
  }

  /** The XADD of the delivery callback. */
  method Deliver(db: Tables, q: Queue, id: SubmissionId, command: Command) returns (ok: bool)
    requires q.Valid() && AllWellFormed(q.messages) && id in db.rows
    modifies q`messages
    ensures q.Valid() && AllWellFormed(q.messages)
    ensures ok <==> Sendable(db.rows, id) && command.Answered?
    ensures q.messages == if Sendable(db.rows, id) && !command.Unapplied?
                          then old(q.messages) + [JobMessage(id.text, db.rows[id].participant.text)] else old(q.messages)
    ensures StreamOf(q.messages) == old(StreamOf(q.messages))
                                    + if Sendable(db.rows, id) && !command.Unapplied?
                                      then [Entry(id, db.rows[id].participant, New)] else []
  {
    if Sendable(db.rows, id) {
      StreamAppend(q.messages, JobMessage(id.text, db.rows[id].participant.text));
    }
    ok := q.Enqueue(id.text, db.rows[id].participant.text, command);
  }

  /** Enqueue refuses empty ids. */
  predicate Sendable(rows: Rows, id: SubmissionId)
    requires id in rows
  {
    id.text != "" && rows[id].participant.text != ""
  }

  /** The events that the transactions of other dispatchers hold, to be skipped. */
  ghost predicate Skips(s: State, locked: set<nat>) { forall ev :: ev in locked <==> EventLocked(s, ev) }

  /** The three steps of one round for event `ev`. */
  function RoundLabels(rows: Rows, id: SubmissionId, d: nat, ev: nat, now: nat, command: Command, fault: Fault): seq<Label> {
    var sends := id in rows && Sendable(rows, id) && !command.Unapplied?;
    var answered := sends && command.Answered?;
    [Pick(d, ev, now), Send(d, sends, answered), Settle(d, answered, fault)]
  }

  /** One iteration of outboxLoop, SELECT, XADD, UPDATE, COMMIT, each of which may fail or lose its reply: the least
      ready event that nobody else holds is sent, and marked delivered after an answered XADD or backed off. */
  method OutboxRound(c: Config, db: Tables, q: Queue, d: nat, locked: set<nat>, now: nat, command: Command, fault: Fault,
                     ghost s: State)
    returns (event: Option<nat>, ghost ls: seq<Label>)
    requires db.Valid() && q.Valid() && AllWellFormed(q.messages) && s == World(db, q, now, s.workers, s.dispatchers)
    requires d in s.dispatchers && s.dispatchers[d].Resting? && Skips(s, locked)
    modifies db`outbox, q`messages
    ensures db.Valid() && q.Valid() && AllWellFormed(q.messages)
    ensures Exec(c, s, ls) == Some(World(db, q, now, s.workers, s.dispatchers))
    ensures event.None? <==> forall ev :: Ready(s, ev, now) ==> EventLocked(s, ev)
    ensures event.None? ==> ls == [] && db.outbox == old(db.outbox) && q.messages == old(q.messages)
    ensures event.Some? ==>
      && Ready(s, event.value, now) && !EventLocked(s, event.value)
      && (forall ev :: Ready(s, ev, now) && !EventLocked(s, ev) ==> event.value <= ev)
      && var e := s.outbox[event.value];
         var sends := Sendable(s.rows, e.submission) && !command.Unapplied?;
         && ls == RoundLabels(s.rows, e.submission, d, event.value, now, command, fault)
         && q.messages == (if sends then old(q.messages)
                                         + [JobMessage(e.submission.text, s.rows[e.submission].participant.text)]
                           else old(q.messages))
         && db.outbox == AfterRound(c, s.outbox, event.value, now, sends && command.Answered?, fault)
  {
    var next := db.SelectNext(now, locked);
    forall ev ensures Ready(s, ev, now) <==> db.ReadyEvent(ev, now) { }
    if next.None? {
      ls := [];
      return None, ls;
    }
    var ev := next.value;
    assert Ready(s, ev, now);
    PickIs(c, s, d, ev);
    ghost var m1 := s.(dispatchers := s.dispatchers[d := Picked(ev, now)]);
    var answered;
    ghost var m2, send;
    answered, send, m2 := SendPicked(c, db, q, d, now, ev, command, m1);
    event := SettlePicked(c, db, q, d, locked, now, ev, answered, fault, m2);
    assert m2.dispatchers[d := Resting] == s.dispatchers;
    ghost var l3 := Settle(d, answered, fault);
    ThreeSteps(c, s, Pick(d, ev, now), m1, send, m2, l3, World(db, q, now, s.workers, s.dispatchers));
    ls := [Pick(d, ev, now), send] + [l3];
  }

  /** The end of the transaction that has selected the least ready event `ev` and called back with `answered`. */
  method SettlePicked(c: Config, db: Tables, q: Queue, d: nat, locked: set<nat>, now: nat, ev: nat, answered: bool,
                      fault: Fault, ghost s: State)
    returns (event: Option<nat>)
    requires db.Valid() && AllWellFormed(q.messages) && s == World(db, q, now, s.workers, s.dispatchers)
    requires d in s.dispatchers && s.dispatchers[d] == if answered then Sent(ev, now) else Refused(ev, now)
    requires db.ReadyEvent(ev, now) && ev !in locked
    requires forall x :: db.ReadyEvent(x, now) && x !in locked ==> ev <= x
    modifies db`outbox
    ensures db.Valid() && event == Some(ev)
    ensures db.outbox == AfterRound(c, s.outbox, ev, now, answered, fault)
    ensures Apply(c, s, Settle(d, answered, fault)) ==
            Some(World(db, q, now, s.workers, s.dispatchers[d := Resting]))
  {
    var processed;
    processed, event := db.ProcessNextOutbox(now, locked, c.maxBackoff, c.halfUp, answered, fault);
    SettleIs(c, s, d, ev, answered, fault, db.outbox);
  }

  /** The XADD for the event that dispatcher `d` has picked. */
  method SendPicked(c: Config, db: Tables, q: Queue, d: nat, now: nat, ev: nat, command: Command, ghost s: State)
    returns (answered: bool, ghost l: Label, ghost s': State)
    requires db.Valid() && q.Valid() && AllWellFormed(q.messages) && s == World(db, q, now, s.workers, s.dispatchers)
    requires d in s.dispatchers && s.dispatchers[d] == Picked(ev, now) && ev in db.outbox
    modifies q`messages
    ensures q.Valid() && AllWellFormed(q.messages)
    ensures var id := db.outbox[ev].submission;
            var sends := Sendable(db.rows, id) && !command.Unapplied?;
            && answered == (sends && command.Answered?) && l == Send(d, sends, answered)
            && q.messages == if sends then old(q.messages) + [JobMessage(id.text, db.rows[id].participant.text)]
                             else old(q.messages)
    ensures s' == World(db, q, now, s.workers,
                        s.dispatchers[d := if answered then Sent(ev, now) else Refused(ev, now)])
    ensures Apply(c, s, l) == Some(s')
  {
    var id := db.outbox[ev].submission;
    answered := Deliver(db, q, id, command);
    l := Send(d, Sendable(db.rows, id) && !command.Unapplied?, answered);
    s' := World(db, q, now, s.workers, s.dispatchers[d := if answered then Sent(ev, now) else Refused(ev, now)]);
    SendIs(c, s, d, ev, l, s');
  }

  ghost function Waiting(outbox: Outbox): set<nat> { set ev | ev in outbox && !outbox[ev].delivered }

  lemma OneLess(c: Config, outbox: Outbox, ev: nat, now: nat)
    requires ev in outbox && !outbox[ev].delivered
    ensures |Waiting(AfterRound(c, outbox, ev, now, true, NoFault))| == |Waiting(outbox)| - 1
  {
    assert Waiting(AfterRound(c, outbox, ev, now, true, NoFault)) == Waiting(outbox) - {ev};
    assert ev in Waiting(outbox);
  }

  /** The rows have ids that a message can carry. */
  predicate AllSendable(rows: Rows) { forall id :: id in rows ==> Sendable(rows, id) }

  /** An event that a round selected, and its submission. */
  datatype Pickup = Pickup(event: nat, id: SubmissionId)

  /** Whole rounds of dispatcher `d`, one for each pick, the i-th under commands(i) and faults(i). */
  function TickLabels(rows: Rows, d: nat, now: nat, picks: seq<Pickup>, commands: nat -> Command, faults: nat -> Fault):
    seq<Label>
  {
    if picks == [] then []
    else
      var k := |picks| - 1;
      TickLabels(rows, d, now, picks[..k], commands, faults)
      + RoundLabels(rows, picks[k].id, d, picks[k].event, now, commands(k), faults(k))
  }

  lemma OneMoreRound(rows: Rows, d: nat, now: nat, picks: seq<Pickup>, pick: Pickup, commands: nat -> Command,
                     faults: nat -> Fault)
    ensures TickLabels(rows, d, now, picks + [pick], commands, faults) ==
            TickLabels(rows, d, now, picks, commands, faults)
            + RoundLabels(rows, pick.id, d, pick.event, now, commands(|picks|), faults(|picks|))
  {
    assert (picks + [pick])[..|picks|] == picks;
  }

  /** One more iteration of a tick, after `k` rounds. */
  method TickRound(c: Config, db: Tables, q: Queue, d: nat, locked: set<nat>, now: nat, k: nat, commands: nat -> Command,
                   faults: nat -> Fault, ghost s: State, ghost ls: seq<Label>, ghost picks: seq<Pickup>)
    returns (found: bool, ghost ls': seq<Label>, ghost picks': seq<Pickup>)
    requires db.Valid() && q.Valid() && AllWellFormed(q.messages)
    requires Exec(c, s, ls) == Some(World(db, q, now, s.workers, s.dispatchers))
    requires d in s.dispatchers && s.dispatchers[d].Resting? && Skips(s, locked)
    requires |picks| == k && ls == TickLabels(db.rows, d, now, picks, commands, faults)
    modifies db`outbox, q`messages
    ensures db.Valid() && q.Valid() && AllWellFormed(q.messages)
    ensures Exec(c, s, ls') == Some(World(db, q, now, s.workers, s.dispatchers))
    ensures |picks'| == (if found then k + 1 else k) && ls' == TickLabels(db.rows, d, now, picks', commands, faults)
    ensures !found ==> db.outbox == old(db.outbox) && forall ev :: db.ReadyEvent(ev, now) ==> ev in locked
    ensures found && commands(k).Answered? && AllSendable(db.rows) && faults(k).NoFault? ==>
              |Waiting(db.outbox)| == |Waiting(old(db.outbox))| - 1
  {
    hide Apply;
    ghost var m := World(db, q, now, s.workers, s.dispatchers);
    forall ev ensures EventLocked(m, ev) <==> EventLocked(s, ev) { }
    var event;
    ghost var rest;
    event, rest := OutboxRound(c, db, q, d, locked, now, commands(k), faults(k), m);
    found := event.Some?;
    if found {
      ExecJoin(c, s, ls, m, rest, World(db, q, now, s.workers, s.dispatchers));
      ghost var pick := Pickup(event.value, m.outbox[event.value].submission);
      OneMoreRound(db.rows, d, now, picks, pick, commands, faults);
      ls', picks' := ls + rest, picks + [pick];
      OneLess(c, m.outbox, event.value, now);
    } else {
      ls', picks' := ls, picks;
      assert forall ev :: db.ReadyEvent(ev, now) ==> Ready(m, ev, now);
    }
  }

  /** One tick of outboxLoop: a hundred rounds, or fewer if one ends in an error, which is then the last, or finds nothing
      ready that is not held elsewhere. If every XADD is answered, each of the `n` rounds without an error delivers one
      event. */
  method OutboxTick(c: Config, db: Tables, q: Queue, d: nat, locked: set<nat>, now: nat,
                    commands: nat -> Command, faults: nat -> Fault, ghost s: State)
    returns (n: nat, ghost ls: seq<Label>, ghost picks: seq<Pickup>)
    requires db.Valid() && q.Valid() && AllWellFormed(q.messages) && s == World(db, q, now, s.workers, s.dispatchers)
    requires d in s.dispatchers && s.dispatchers[d].Resting? && Skips(s, locked)
    modifies db`outbox, q`messages
    ensures db.Valid() && q.Valid() && AllWellFormed(q.messages)
    ensures Exec(c, s, ls) == Some(World(db, q, now, s.workers, s.dispatchers))
    ensures n <= 100 && forall i :: 0 <= i < n ==> faults(i).NoFault?
    ensures ls == TickLabels(s.rows, d, now, picks, commands, faults)
    ensures n == 100 ==> |picks| == 100
    ensures n < 100 ==>
      || (|picks| == n && forall ev :: db.ReadyEvent(ev, now) ==> ev in locked)
      || (|picks| == n + 1 && !faults(n).NoFault?)
    ensures n == 0 && faults(0).NoFault? ==> db.outbox == old(db.outbox)
    ensures (forall i :: commands(i).Answered?) && AllSendable(db.rows) && (n == 100 || faults(n).NoFault?) ==>
              |Waiting(db.outbox)| + n == |Waiting(old(db.outbox))|
  {
    hide Apply;
    n, ls, picks := 0, [], [];
    while n < 100
      invariant db.Valid() && q.Valid() && AllWellFormed(q.messages) && n <= 100
      invariant Exec(c, s, ls) == Some(World(db, q, now, s.workers, s.dispatchers))
      invariant |picks| == n && ls == TickLabels(s.rows, d, now, picks, commands, faults)
      invariant forall i :: 0 <= i < n ==> faults(i).NoFault?
      invariant n == 0 ==> db.outbox == s.outbox
      invariant (forall i :: commands(i).Answered?) && AllSendable(db.rows) ==>
                  |Waiting(db.outbox)| + n == |Waiting(s.outbox)|
    {
      var found;
      found, ls, picks := TickRound(c, db, q, d, locked, now, n, commands, faults, s, ls, picks);
      if !found || !faults(n).NoFault? { return; }
      n := n + 1;
    }
  }
}
