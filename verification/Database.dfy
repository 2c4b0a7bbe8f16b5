/**
 The transactions of the database layer as methods that change the tables in place, one at a time. COUNT(*) is the
 size of a set. Each call may meet a fault: an error before the commit, or a commit whose reply is lost.
 */
module Database {
  import opened Protocol

  datatype Fault = NoFault | BeforeCommit | ReplyLost

  datatype CreateError = Created | InvalidLimits | GlobalCapacity | ParticipantQueuedQuota | CreateFailed
  datatype StartReply = StartOk(result: StartResult) | StartFailed
  datatype Updated = UpdateOk(changed: bool) | UpdateFailed

  /** Limits are checked before anything is read, the global capacity before the participant's quota. */
  function CreateOutcome(rows: Rows, id: SubmissionId, p: ParticipantId, maxActive: int, maxQueued: int): CreateError {
    if maxActive <= 0 || maxQueued <= 0 then InvalidLimits
    else if |Active(rows)| >= maxActive then GlobalCapacity
    else if |QueuedOf(rows, p)| >= maxQueued then ParticipantQueuedQuota
    else if id in rows then CreateFailed
    else Created
  }

  /** What COUNT(*) counts: the statuses of each query, written out. */
  lemma CountsSpelledOut(rows: Rows, p: ParticipantId)
    ensures Active(rows) == set x | x in rows && (rows[x].status == Queued || rows[x].status == MockProcessing)
    ensures QueuedOf(rows, p) == set x | x in rows && rows[x].participant == p && rows[x].status == Queued
    ensures RunningOf(rows, p) == set x | x in rows && rows[x].status == MockProcessing && rows[x].participant == p
  {
  }

  class Tables {
    var rows: Rows
    var outbox: Outbox
    var nextEvent: nat

    constructor ()
      ensures rows == map[] && outbox == map[] && Valid()
    {
      rows, outbox, nextEvent := map[], map[], 0;
    }

    ghost predicate Valid()
      reads this
    {
      forall ev :: ev in outbox ==> ev < nextEvent && outbox[ev].submission in rows
    }

    /** The event and the row appear together or not at all. */
    method CreateSubmissionQueued(id: SubmissionId, p: ParticipantId, maxActive: int, maxQueued: int, now: nat, fault: Fault)
      returns (err: CreateError)
      requires Valid()
      modifies this
      ensures Valid() && nextEvent >= old(nextEvent)
      ensures fault.NoFault? ==>
                var active := |set x | x in old(rows)
                                       && (old(rows)[x].status == Queued || old(rows)[x].status == MockProcessing)|;
                var queued := |set x | x in old(rows) && old(rows)[x].participant == p && old(rows)[x].status == Queued|;
                && (err == InvalidLimits <==> maxActive <= 0 || maxQueued <= 0)
                && (err == GlobalCapacity <==> maxActive > 0 && maxQueued > 0 && active >= maxActive)
                && (err == ParticipantQueuedQuota <==>
                      maxActive > 0 && maxQueued > 0 && active < maxActive && queued >= maxQueued)
                && (err == CreateFailed <==> active < maxActive && queued < maxQueued && id in old(rows))
                && (err == Created <==> active < maxActive && queued < maxQueued && id !in old(rows))
                && err == CreateOutcome(old(rows), id, p, maxActive, maxQueued)
      ensures !fault.NoFault? ==> err == CreateFailed || (err != Created && rows == old(rows))
      ensures err.Created? ==> fault.NoFault?
      ensures err.Created? || rows != old(rows) ==>
                && id !in old(rows) && old(nextEvent) !in old(outbox)
                && |Active(old(rows))| < maxActive && |QueuedOf(old(rows), p)| < maxQueued
                && rows == old(rows)[id := Row(p, Queued, None, None, None)]
                && outbox == old(outbox)[old(nextEvent) := Event(id, false, 0, now)]
      ensures rows == old(rows) ==> outbox == old(outbox)
      ensures fault.ReplyLost? && CreateOutcome(old(rows), id, p, maxActive, maxQueued).Created? ==> id in rows
      ensures rows != old(rows) ==> err.Created? || fault.ReplyLost?
    {
      CountsSpelledOut(rows, p);
      if maxActive <= 0 || maxQueued <= 0 { return InvalidLimits; }
      var count := |Active(rows)|;
      if count >= maxActive { return GlobalCapacity; }
      count := |QueuedOf(rows, p)|;
      if count >= maxQueued { return ParticipantQueuedQuota; }
      if id in rows || fault.BeforeCommit? { return CreateFailed; }
      rows := rows[id := NewRow(p)];
      outbox := outbox[nextEvent := NewEvent(id, now)];
      nextEvent := nextEvent + 1;
      assert rows[id] == NewRow(p);
      err := if fault.ReplyLost? then CreateFailed else Created;
    }

    method TryStartSubmission(id: SubmissionId, maxRunning: int, now: nat, fault: Fault) returns (reply: StartReply)
      requires Valid()
      modifies this`rows
      ensures Valid()
      ensures maxRunning <= 0 ==> reply.StartFailed? && rows == old(rows)
      ensures reply.StartOk? ==>
                && reply.result == StartOutcome(old(rows), id, maxRunning)
                && (reply.result == StartNotFound <==> id !in old(rows))
                && (reply.result == StartDuplicateOrTerminal <==> id in old(rows) && old(rows)[id].status != Queued)
      ensures reply.StartOk? && id in old(rows) ==>
                var p := old(rows)[id].participant;
                var running := |set x | x in old(rows) && old(rows)[x].status == MockProcessing
                                        && old(rows)[x].participant == p|;
                && (reply.result == StartQuotaBusy <==> old(rows)[id].status == Queued && running >= maxRunning)
                && (reply.result == StartStarted <==> old(rows)[id].status == Queued && running < maxRunning)
      ensures maxRunning > 0 ==>
                var starts := StartOutcome(old(rows), id, maxRunning).StartStarted?;
                && (reply.StartFailed? <==> fault.BeforeCommit? || (fault.ReplyLost? && starts))
                && rows == if starts && !fault.BeforeCommit?
                           then old(rows)[id := old(rows)[id].(status := MockProcessing, startedAt := Some(now))]
                           else old(rows)
    {
      if id in rows { CountsSpelledOut(rows, rows[id].participant); }
      if maxRunning <= 0 || fault.BeforeCommit? { return StartFailed; }
      if id !in rows { return StartOk(StartNotFound); }
      var p := rows[id].participant;
      if !rows[id].status.Queued? { return StartOk(StartDuplicateOrTerminal); }
      var running := |RunningOf(rows, p)|;
      if running >= maxRunning { return StartOk(StartQuotaBusy); }
      rows := rows[id := StartedRow(rows[id], now)];
      reply := if fault.ReplyLost? then StartFailed else StartOk(StartStarted);
    }

    /** One UPDATE guarded by the status; zero rows changed is not an error. */
    method FinishSubmissionConditional(id: SubmissionId, result: RunResult, now: nat, fault: Fault) returns (u: Updated)
      requires Valid()
      modifies this`rows
      ensures Valid()
      ensures u.UpdateOk? ==> (u.changed <==> id in old(rows) && old(rows)[id].status.MockProcessing?)
      ensures rows == if !fault.BeforeCommit? && id in old(rows) && old(rows)[id].status.MockProcessing?
                      then old(rows)[id := old(rows)[id].(status := Finished, finishedAt := Some(now), result := Some(result))]
                      else old(rows)
      ensures u.UpdateOk? <==> fault.NoFault?
    {
      if fault.BeforeCommit? { return UpdateFailed; }
      var matched := id in rows && rows[id].status.MockProcessing?;
      if matched {
        rows := rows[id := rows[id].(status := Finished, finishedAt := Some(now), result := Some(result))];
      }
      u := if fault.ReplyLost? then UpdateFailed else UpdateOk(matched);
    }

    method SetInternalError(id: SubmissionId, now: nat, fault: Fault) returns (ok: bool)
      requires Valid()
      modifies this`rows
      ensures Valid() && (ok <==> fault.NoFault?)
      ensures rows == if !fault.BeforeCommit? && id in old(rows)
                         && (old(rows)[id].status == Queued || old(rows)[id].status == MockProcessing)
                      then old(rows)[id := old(rows)[id].(status := InternalError, finishedAt := Some(now))] else old(rows)
    {
      if fault.BeforeCommit? { return false; }
      if id in rows && (rows[id].status.Queued? || rows[id].status.MockProcessing?) {
        rows := rows[id := FailedRow(rows[id], now)];
      }
      ok := fault.NoFault?;
    }

    /** A stale row goes back to the queue together with a fresh event; any other row stays as it is. */
    method RecoverStaleSubmission(id: SubmissionId, staleBefore: nat, now: nat, fault: Fault) returns (u: Updated)
      requires Valid()
      modifies this
      ensures Valid() && nextEvent >= old(nextEvent)
      ensures u == UpdateOk(true) ==> fault.NoFault?
      ensures var stale := id in old(rows) && old(rows)[id].status.MockProcessing?
                           && old(rows)[id].startedAt.Some? && old(rows)[id].startedAt.value <= staleBefore;
              && (stale && !fault.BeforeCommit? ==>
                    && rows == old(rows)[id := old(rows)[id].(status := Queued, startedAt := None)]
                    && old(nextEvent) !in old(outbox)
                    && outbox == old(outbox)[old(nextEvent) := Event(id, false, 0, now)])
              && (!stale || fault.BeforeCommit? ==> rows == old(rows) && outbox == old(outbox))
              && (fault.NoFault? ==> u == UpdateOk(stale))
    {
      if fault.BeforeCommit? { return UpdateFailed; }
      if !(id in rows && rows[id].status.MockProcessing? && rows[id].startedAt.Some?
           && rows[id].startedAt.value <= staleBefore) {
        return if fault.ReplyLost? then UpdateFailed else UpdateOk(false);
      }
      rows := rows[id := RequeuedRow(rows[id])];
      outbox := outbox[nextEvent := NewEvent(id, now)];
      nextEvent := nextEvent + 1;
      u := if fault.ReplyLost? then UpdateFailed else UpdateOk(true);
    }

    ghost function StaleSet(staleBefore: nat): set<SubmissionId>
      reads this
    {
      set id | id in rows && rows[id].status.MockProcessing? && rows[id].startedAt.Some?
               && rows[id].startedAt.value <= staleBefore
    }

    function StartOf(id: SubmissionId): nat
      reads this
    {
      if id in rows && rows[id].startedAt.Some? then rows[id].startedAt.value else 0
    }

    /** The `limit` oldest stale rows, oldest first. */
    method ListStaleProcessing(staleBefore: nat, limit: nat) returns (ids: seq<SubmissionId>)
      ensures |ids| == if |StaleSet(staleBefore)| < limit then |StaleSet(staleBefore)| else limit
      ensures forall i :: 0 <= i < |ids| ==> ids[i] in StaleSet(staleBefore)
      ensures forall i, j :: 0 <= i < j < |ids| ==> ids[i] != ids[j] && StartOf(ids[i]) <= StartOf(ids[j])
      ensures forall id, i :: id in StaleSet(staleBefore) && id !in ids && 0 <= i < |ids| ==> StartOf(ids[i]) <= StartOf(id)
    {
      var rest := set id | id in rows && rows[id].status.MockProcessing? && rows[id].startedAt.Some?
                           && rows[id].startedAt.value <= staleBefore;
      ids := [];
      while rest != {} && |ids| < limit
        invariant rest <= StaleSet(staleBefore)
        invariant forall id :: id in StaleSet(staleBefore) <==> id in rest || id in ids
        invariant forall i :: 0 <= i < |ids| ==> ids[i] !in rest && ids[i] in StaleSet(staleBefore)
        invariant |ids| <= limit && |rest| + |ids| == |StaleSet(staleBefore)|
        invariant forall i, j :: 0 <= i < j < |ids| ==> ids[i] != ids[j] && StartOf(ids[i]) <= StartOf(ids[j])
        invariant forall id, i :: id in rest && 0 <= i < |ids| ==> StartOf(ids[i]) <= StartOf(id)
        decreases |rest|
      {
        var next := Oldest(rest);
        rest := rest - {next};
        ids := ids + [next];
      }
    }

    method Oldest(candidates: set<SubmissionId>) returns (id: SubmissionId)
      requires candidates != {}
      ensures id in candidates && forall x :: x in candidates ==> StartOf(id) <= StartOf(x)
    {
      id :| id in candidates;
      var rest := candidates - {id};
      while rest != {}
        invariant id in candidates && rest <= candidates
        invariant forall x :: x in candidates && x !in rest ==> StartOf(id) <= StartOf(x)
        decreases |rest|
      {
        var x :| x in rest;
        if StartOf(x) < StartOf(id) { id := x; }
        rest := rest - {x};
      }
    }

    /** The ready event with the least id among those that no other dispatcher has locked. */
    method SelectNext(now: nat, locked: set<nat>) returns (next: Option<nat>)
      ensures next.Some? ==> ReadyEvent(next.value, now) && next.value !in locked
      ensures next.Some? ==> forall ev :: ReadyEvent(ev, now) && ev !in locked ==> next.value <= ev
      ensures next.None? ==> forall ev :: ReadyEvent(ev, now) ==> ev in locked
    {
      var rest := outbox.Keys;
      next := None;
      while rest != {}
        invariant rest <= outbox.Keys
        invariant next.Some? ==> ReadyEvent(next.value, now) && next.value !in locked
        invariant forall ev :: ReadyEvent(ev, now) && ev !in locked && ev !in rest ==> next.Some? && next.value <= ev
        decreases |rest|
      {
        var ev :| ev in rest;
        if !outbox[ev].delivered && outbox[ev].availableAt <= now && ev !in locked && (next.None? || ev < next.value) {
          next := Some(ev);
        }
        rest := rest - {ev};
      }
    }

    predicate ReadyEvent(ev: nat, now: nat)
      reads this
    {
      ev in outbox && !outbox[ev].delivered && outbox[ev].availableAt <= now
    }

    /** One round of the dispatcher: at most one event changes, and it is marked delivered only after an answered XADD.
        Whether the update survives is up to the commit. */
    method ProcessNextOutbox(
      now: nat, locked: set<nat>, maxBackoff: nat, halfUp: bool, answered: bool, fault: Fault)
      returns (processed: bool, event: Option<nat>)
      modifies this`outbox
      ensures processed <==> event.Some?
      ensures event.None? ==> outbox == old(outbox) && forall ev :: old(ReadyEvent(ev, now)) ==> ev in locked
      ensures event.Some? ==>
                && old(ReadyEvent(event.value, now)) && event.value !in locked
                && (forall ev :: old(ReadyEvent(ev, now)) && ev !in locked ==> event.value <= ev)
                && var e := old(outbox)[event.value];
                   outbox ==
                     if fault.BeforeCommit? then old(outbox)
                     else if answered then old(outbox)[event.value := e.(delivered := true)]
                     else old(outbox)[event.value := e.(attempts := e.attempts + 1,
                                                        availableAt := now + StoredDelay(e.attempts, maxBackoff, halfUp))]
    {
      event := SelectNext(now, locked);
      if event.None? { return false, event; }
      processed := true;
      var e := outbox[event.value];
      if fault.BeforeCommit? { return; }
      if !answered {
        outbox := outbox[event.value := e.(attempts := e.attempts + 1,
                                           availableAt := now + StoredDelay(e.attempts, maxBackoff, halfUp))];
      } else {
        outbox := outbox[event.value := e.(delivered := true)];
      }
    }
  }
}
