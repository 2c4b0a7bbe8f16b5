/**
 The invariants of the lifecycle machine, and the first main result: no accepted submission is lost,
 over every run, with any interleaving, crash and lost reply.
 */
module NoLoss {
  import opened Protocol
  import opened Steps

  // ----- Well-formedness -----

  /** Events and entries refer to rows, and a processing row has its start time. */
  ghost predicate References(s: State) {
    && (forall ev :: ev in s.outbox ==> s.outbox[ev].submission in s.rows)
    && (forall e :: 0 <= e < |s.stream| ==> s.stream[e].submission in s.rows)
    && (forall id :: id in s.rows && s.rows[id].status.MockProcessing? ==>
          s.rows[id].startedAt.Some? && s.rows[id].startedAt.value <= s.now)
  }

  /** Delivery discipline: exactly the entries behind the cursor are new. */
  ghost predicate StreamOk(s: State) {
    && s.cursor <= |s.stream|
    && (forall e :: 0 <= e < |s.stream| ==> (s.stream[e].state.New? <==> s.cursor <= e))
    && (forall e :: 0 <= e < |s.stream| && s.stream[e].state.Pending? ==> s.stream[e].state.deliveredAt <= s.now)
  }

  ghost predicate WorkersOk(s: State) {
    forall w :: w in s.workers ==> WorkerOk(s, s.workers[w])
  }

  ghost predicate WorkerOk(s: State, pc: WorkerPc) {
    && (!pc.Idle? ==> pc.entry < s.cursor <= |s.stream|)
    && (pc.DelWait? ==> s.stream[pc.entry].state.Acked? || s.stream[pc.entry].state.Gone?)
    && (pc.Attempting() ==> pc.claimedAt <= s.now)
  }

  ghost predicate DispatcherOk(s: State, pc: DispatchPc)
    requires !pc.Resting?
  {
    pc.event in s.outbox && !s.outbox[pc.event].delivered && pc.txTime <= s.now
  }

  ghost predicate DispatchersOk(s: State) {
    && (forall d :: d in s.dispatchers && !s.dispatchers[d].Resting? ==> DispatcherOk(s, s.dispatchers[d]))
    && (forall d, d' :: d in s.dispatchers && d' in s.dispatchers && d != d' && !s.dispatchers[d].Resting? ==>
          !s.dispatchers[d'].Locks(s.dispatchers[d].event))
  }

  ghost predicate WellFormed(s: State) {
    References(s) && StreamOk(s) && WorkersOk(s) && DispatchersOk(s)
  }

  lemma ReferencesStep(c: Config, s: State, l: Label, s': State)
    requires WellFormed(s) && Facts(c, s, l, s')
    ensures References(s')
  {
    forall ev | ev in s'.outbox ensures s'.outbox[ev].submission in s'.rows {
      assert EventFact(c, s, l, s', ev);
      assert RowFact(c, s, l, s', s'.outbox[ev].submission);
    }
    forall e | 0 <= e < |s'.stream| ensures s'.stream[e].submission in s'.rows {
      assert EntryFact(c, s, l, s', e);
      assert RowFact(c, s, l, s', s'.stream[e].submission);
    }
    forall id | id in s'.rows && s'.rows[id].status.MockProcessing?
      ensures s'.rows[id].startedAt.Some? && s'.rows[id].startedAt.value <= s'.now
    {
      assert RowFact(c, s, l, s', id);
    }
  }

  lemma StreamOkStep(c: Config, s: State, l: Label, s': State)
    requires WellFormed(s) && Facts(c, s, l, s')
    ensures StreamOk(s')
  {
    assert EntryFact(c, s, l, s', 0);
    forall e | 0 <= e < |s'.stream|
      ensures s'.stream[e].state.New? <==> s'.cursor <= e
      ensures s'.stream[e].state.Pending? ==> s'.stream[e].state.deliveredAt <= s'.now
    {
      assert EntryFact(c, s, l, s', e);
      if Acks(s, l, e) || Deletes(s, l, e) {
        assert WorkerOk(s, s.workers[l.worker]);
      }
    }
  }

  lemma WorkersOkStep(c: Config, s: State, l: Label, s': State)
    requires WellFormed(s) && Facts(c, s, l, s')
    ensures WorkersOk(s')
  {
    forall w | w in s'.workers ensures WorkerOk(s', s'.workers[w]) {
      assert WorkerFact(c, s, l, s', w);
      assert WorkerOk(s, s.workers[w]);
      if !s'.workers[w].Idle? {
        assert EntryFact(c, s, l, s', s'.workers[w].entry);
      }
    }
  }

  lemma DispatchersOkStep(c: Config, s: State, l: Label, s': State)
    requires WellFormed(s) && Facts(c, s, l, s')
    ensures DispatchersOk(s')
  {
    forall d | d in s'.dispatchers && !s'.dispatchers[d].Resting?
      ensures DispatcherOk(s', s'.dispatchers[d])
    {
      assert DispatcherFact(s, l, s', d);
      assert EventFact(c, s, l, s', s'.dispatchers[d].event);
    }
    forall d, d' | d in s'.dispatchers && d' in s'.dispatchers && d != d' && !s'.dispatchers[d].Resting?
      ensures !s'.dispatchers[d'].Locks(s'.dispatchers[d].event)
    {
      assert DispatcherFact(s, l, s', d);
      assert DispatcherFact(s, l, s', d');
    }
  }

  lemma WellFormedStep(c: Config, s: State, l: Label, s': State)
    requires WellFormed(s) && Facts(c, s, l, s')
    ensures WellFormed(s')
  {
    ReferencesStep(c, s, l, s');
    StreamOkStep(c, s, l, s');
    WorkersOkStep(c, s, l, s');
    DispatchersOkStep(c, s, l, s');
  }

  // ----- No loss -----

  /** An undelivered event that no dispatcher is about to mark as delivered. */
  ghost predicate SafeEvent(s: State, ev: nat, id: SubmissionId) {
    && ev in s.outbox && s.outbox[ev].submission == id && !s.outbox[ev].delivered
    && (forall d :: d in s.dispatchers ==> !(s.dispatchers[d].Sent? && s.dispatchers[d].event == ev))
  }

  /** A new or pending entry that no worker with a start decision may still acknowledge. */
  ghost predicate SafeEntry(s: State, e: nat, id: SubmissionId) {
    && e < |s.stream| && s.stream[e].submission == id && s.stream[e].Live()
    && (forall w :: w in s.workers ==> !s.workers[w].Decided(e))
  }

  ghost predicate Covered(s: State, id: SubmissionId) {
    (exists ev :: SafeEvent(s, ev, id)) || (exists e :: SafeEntry(s, e, id))
  }

  ghost predicate NothingLost(s: State) {
    forall id :: id in s.rows && s.rows[id].status.Queued? ==> Covered(s, id)
  }

  ghost predicate Inv(s: State) { WellFormed(s) && NothingLost(s) }

  /** A safe event stays safe, or the entry its XADD appended takes over. */
  lemma SafeEventStep(c: Config, s: State, l: Label, s': State, ev: nat, id: SubmissionId)
    requires WellFormed(s) && Facts(c, s, l, s') && SafeEvent(s, ev, id)
    ensures Covered(s', id)
  {
    assert EventFact(c, s, l, s', ev);
    if l.Send? {
      assert DispatcherFact(s, l, s', l.dispatcher);
    }
    if l.Send? && l.replied && s.dispatchers[l.dispatcher].event == ev {
      var e := |s.stream|;
      assert EntryFact(c, s, l, s', e);
      forall w | w in s'.workers ensures !s'.workers[w].Decided(e) {
        assert WorkerFact(c, s, l, s', w);
        assert WorkerOk(s, s.workers[w]);
      }
      assert SafeEntry(s', e, id);
    } else {
      forall d | d in s'.dispatchers ensures !(s'.dispatchers[d].Sent? && s'.dispatchers[d].event == ev) {
        assert DispatcherFact(s, l, s', d);
      }
      assert SafeEvent(s', ev, id);
    }
  }

  /** A safe entry of a queued row stays safe for as long as the row stays queued: a decision on it is
      taken only by a start that changes the row or by one that finds the row not queued. */
  lemma SafeEntryStep(c: Config, s: State, l: Label, s': State, e: nat, id: SubmissionId)
    requires WellFormed(s) && Facts(c, s, l, s') && SafeEntry(s, e, id)
    requires id in s.rows && s.rows[id].status.Queued?
    requires id in s'.rows && s'.rows[id].status.Queued?
    ensures SafeEntry(s', e, id)
  {
    assert EntryFact(c, s, l, s', e);
    assert RowFact(c, s, l, s', id);
    if Acks(s, l, e) || Deletes(s, l, e) {
      assert s.workers[l.worker].Decided(e);
    }
    forall w | w in s'.workers ensures !s'.workers[w].Decided(e) {
      assert WorkerFact(c, s, l, s', w);
      assert !s.workers[w].Decided(e);
    }
  }

  lemma NothingLostStep(c: Config, s: State, l: Label, s': State)
    requires Inv(s) && Facts(c, s, l, s')
    ensures NothingLost(s')
  {
    forall id | id in s'.rows && s'.rows[id].status.Queued? ensures Covered(s', id) {
      assert RowFact(c, s, l, s', id);
      if id in s.rows && s.rows[id].status.Queued? {
        if ev :| SafeEvent(s, ev, id) {
          SafeEventStep(c, s, l, s', ev, id);
        } else {
          var e :| SafeEntry(s, e, id);
          SafeEntryStep(c, s, l, s', e, id);
        }
      } else {
        FreshEventIsSafe(c, s, l, s', id);
      }
    }
  }

  /** Creation and recovery queue a row and write its event in the same transaction. */
  lemma FreshEventIsSafe(c: Config, s: State, l: Label, s': State, id: SubmissionId)
    requires WellFormed(s) && Facts(c, s, l, s')
    requires CreatesRow(c, s, l, id) || RequeuesRow(c, s, l, id)
    ensures SafeEvent(s', l.event, id)
  {
    assert EventFact(c, s, l, s', l.event);
    forall d | d in s'.dispatchers ensures !(s'.dispatchers[d].Sent? && s'.dispatchers[d].event == l.event) {
      assert DispatcherFact(s, l, s', d);
    }
  }

  lemma InvStep(c: Config, s: State, l: Label, s': State)
    requires Inv(s) && Apply(c, s, l) == Some(s')
    ensures Inv(s')
  {
    StepFacts(c, s, l, s');
    WellFormedStep(c, s, l, s');
    NothingLostStep(c, s, l, s');
  }

  lemma {:induction false} InvRun(c: Config, s: State, ls: seq<Label>)
    requires Inv(s) && Exec(c, s, ls).Some?
    ensures Inv(Exec(c, s, ls).value)
    decreases |ls|
  {
    if ls != [] {
      InvRun(c, s, ls[..|ls| - 1]);
      InvStep(c, Exec(c, s, ls[..|ls| - 1]).value, ls[|ls| - 1], Exec(c, s, ls).value);
    }
  }

  /** No accepted submission is lost: in every reachable state each queued row still has an undelivered
      event, or a new or pending entry that no decided worker holds. */
  lemma NoSubmissionLost(c: Config, s0: State, ls: seq<Label>)
    requires IsInit(s0) && Exec(c, s0, ls).Some?
    ensures Inv(Exec(c, s0, ls).value)
  {
    InvRun(c, s0, ls);
  }

  // ----- Delivery discipline of the stream -----

  function Phase(st: EntryState): nat {
    match st case New => 0 case Pending(_, _) => 1 case Acked => 2 case Gone => 3
  }

  /** Entries only move forward, keep what they say, and keep their place. */
  lemma EntryForward(c: Config, s: State, l: Label, s': State, e: nat)
    requires WellFormed(s) && Facts(c, s, l, s') && e < |s.stream|
    ensures e < |s'.stream| && s'.stream[e] == s.stream[e].(state := s'.stream[e].state)
    ensures Phase(s.stream[e].state) <= Phase(s'.stream[e].state)
  {
    assert EntryFact(c, s, l, s', e);
  }

  lemma {:induction false} EntryRun(c: Config, s: State, ls: seq<Label>, e: nat)
    requires Inv(s) && Exec(c, s, ls).Some? && e < |s.stream|
    ensures Inv(Exec(c, s, ls).value)
    ensures e < |Exec(c, s, ls).value.stream|
    ensures Exec(c, s, ls).value.stream[e] == s.stream[e].(state := Exec(c, s, ls).value.stream[e].state)
    ensures Phase(s.stream[e].state) <= Phase(Exec(c, s, ls).value.stream[e].state)
    decreases |ls|
  {
    if ls != [] {
      EntryRun(c, s, ls[..|ls| - 1], e);
      var m, l, s' := Exec(c, s, ls[..|ls| - 1]).value, ls[|ls| - 1], Exec(c, s, ls).value;
      InvStep(c, m, l, s');
      StepFacts(c, m, l, s');
      EntryForward(c, m, l, s', e);
    }
  }

  /** Once an XACK took effect no later Claim or AutoClaim returns the entry, even if its XDEL failed. */
  lemma AckedNeverRedelivered(c: Config, s: State, ls: seq<Label>, l: Label, s': State, e: nat)
    requires Inv(s) && e < |s.stream| && Phase(s.stream[e].state) >= 2
    requires Exec(c, s, ls).Some? && Apply(c, Exec(c, s, ls).value, l) == Some(s')
    ensures !HandsOut(Exec(c, s, ls).value, l, e)
  {
    EntryRun(c, s, ls, e);
    StepFacts(c, Exec(c, s, ls).value, l, s');
    assert EntryFact(c, Exec(c, s, ls).value, l, s', e);
  }

  /** A new entry is handed out by XREADGROUP once only: in the rest of the run no Claim returns it again. */
  lemma NewEntryClaimedOnce(c: Config, s: State, w: nat, s1: State, ls: seq<Label>)
    requires Inv(s) && Apply(c, s, Claim(w)) == Some(s1) && Exec(c, s1, ls).Some?
    ensures s.stream[s.cursor].state.New? && s1.workers[w] == Claimed(s.cursor, s.now)
    ensures forall w' :: !HandsOut(Exec(c, s1, ls).value, Claim(w'), s.cursor)
  {
    InvStep(c, s, Claim(w), s1);
    EntryRun(c, s1, ls, s.cursor);
  }

  // ----- Terminal rows -----

  /** A terminal row is never touched again, in any field, whatever is delivered afterwards. */
  lemma {:induction false} TerminalFrozen(c: Config, s: State, ls: seq<Label>, id: SubmissionId)
    requires id in s.rows && s.rows[id].status.Terminal() && Exec(c, s, ls).Some?
    ensures id in Exec(c, s, ls).value.rows && Exec(c, s, ls).value.rows[id] == s.rows[id]
    decreases |ls|
  {
    if ls != [] {
      TerminalFrozen(c, s, ls[..|ls| - 1], id);
      RowStep(c, Exec(c, s, ls[..|ls| - 1]).value, ls[|ls| - 1], Exec(c, s, ls).value, id);
    }
  }

  /** In a run without timeouts a row that was not terminal either still is not, or has been finished with the result of
      the mock worker. */
  lemma {:induction false} FinishedUnlessTimedOut(c: Config, s: State, ls: seq<Label>, id: SubmissionId)
    requires id in s.rows && !s.rows[id].status.Terminal() && Exec(c, s, ls).Some?
    requires forall i :: 0 <= i < |ls| ==> !ls[i].TimeOut?
    ensures id in Exec(c, s, ls).value.rows
    ensures var r := Exec(c, s, ls).value.rows[id];
            && r.participant == s.rows[id].participant
            && (r.status == Queued || r.status == MockProcessing
                || (r.status == Finished && r.finishedAt.Some? && r.result == Some(MOCK_RESULT)))
    decreases |ls|
  {
    if ls != [] {
      FinishedUnlessTimedOut(c, s, ls[..|ls| - 1], id);
      RowStep(c, Exec(c, s, ls[..|ls| - 1]).value, ls[|ls| - 1], Exec(c, s, ls).value, id);
    }
  }
}
