/**
 Book-keeping over whole runs: how often a submission was started, recovered and brought to an end, against the
 events in the outbox and the fields of its row.
 */
module Conservation {
  import opened Protocol
  import opened Steps

  /** The committed row transitions of one submission in a run. */
  datatype Tally = Tally(starts: nat, recoveries: nat, finishes: nat, failures: nat)

  function One(b: bool): nat { if b then 1 else 0 }

  function Next(c: Config, s: State, l: Label, id: SubmissionId, t: Tally): Tally {
    Tally(t.starts + One(StartsRow(c, s, l, id)),
          t.recoveries + One(RequeuesRow(c, s, l, id)),
          t.finishes + One(FinishesRow(s, l, id)),
          t.failures + One(FailsRow(s, l, id)))
  }

  function Count(c: Config, s0: State, ls: seq<Label>, id: SubmissionId): Tally {
    if ls == [] || Exec(c, s0, ls[..|ls| - 1]).None? then Tally(0, 0, 0, 0)
    else
      var t := Count(c, s0, ls[..|ls| - 1], id);
      var s := Exec(c, s0, ls[..|ls| - 1]).value;
      var l := ls[|ls| - 1];
      Next(c, s, l, id, t)
  }

  function EventsOf(outbox: Outbox, id: SubmissionId): set<nat> {
    set ev | ev in outbox && outbox[ev].submission == id
  }

  /** What a row's own fields say. */
  ghost predicate RowShape(r: Row) {
    && (r.status.Queued? ==> r.startedAt.None?)
    && (r.status.MockProcessing? ==> r.startedAt.Some?)
    && (r.finishedAt.Some? <==> r.status.Terminal())
    && (r.result.Some? <==> r.status.Finished?)
    && (r.result.Some? ==> r.startedAt.Some? && r.result.value == MOCK_RESULT)
  }

  ghost predicate Balanced(s: State, id: SubmissionId, t: Tally) {
    RowBalanced(s, id, t) && EventsBalanced(s, id, t)
  }

  ghost predicate EventsBalanced(s: State, id: SubmissionId, t: Tally) {
    |EventsOf(s.outbox, id)| == if id in s.rows then 1 + t.recoveries else 0
  }

  ghost predicate RowBalanced(s: State, id: SubmissionId, t: Tally) {
    if id !in s.rows then t == Tally(0, 0, 0, 0)
    else
      && RowShape(s.rows[id])
      && t.starts == t.recoveries + One(s.rows[id].startedAt.Some?)
      && t.finishes == One(s.rows[id].status.Finished?)
      && t.failures == One(s.rows[id].status.InternalError?)
  }

  lemma EventsStep(c: Config, s: State, l: Label, s': State, id: SubmissionId)
    requires Facts(c, s, l, s')
    ensures EventsOf(s'.outbox, id) ==
            EventsOf(s.outbox, id) + (if (l.Create? || l.Recover?) && l.id == id then {l.event} else {})
    ensures (l.Create? || l.Recover?) ==> l.event !in EventsOf(s.outbox, id)
  {
    forall ev ensures ev in EventsOf(s'.outbox, id) <==>
                      ev in EventsOf(s.outbox, id) + (if (l.Create? || l.Recover?) && l.id == id then {l.event} else {})
    {
      if ev >= 0 {
        assert EventFact(c, s, l, s', ev);
      }
    }
  }

  lemma RowBalancedStep(c: Config, s: State, l: Label, s': State, id: SubmissionId, t: Tally)
    requires Facts(c, s, l, s') && RowBalanced(s, id, t)
    ensures RowBalanced(s', id, Next(c, s, l, id, t))
  {
    assert RowFact(c, s, l, s', id);
  }

  lemma EventsBalancedStep(c: Config, s: State, l: Label, s': State, id: SubmissionId, t: Tally)
    requires Facts(c, s, l, s') && RowBalanced(s, id, t) && EventsBalanced(s, id, t)
    ensures EventsBalanced(s', id, Next(c, s, l, id, t))
  {
    assert RowFact(c, s, l, s', id);
    EventsStep(c, s, l, s', id);
  }

  /** Conservation: in every run, for every submission, outbox events are one more than recoveries; committed starts
      are the recoveries plus one if the row is processing or ended from processing; and exactly one terminal write
      ever succeeded if the row is terminal, none otherwise. */
  lemma {:induction false} Conserved(c: Config, s0: State, ls: seq<Label>, id: SubmissionId)
    requires IsInit(s0) && Exec(c, s0, ls).Some?
    ensures Balanced(Exec(c, s0, ls).value, id, Count(c, s0, ls, id))
    decreases |ls|
  {
    if ls == [] {
      assert EventsOf(s0.outbox, id) == {};
    } else {
      Conserved(c, s0, ls[..|ls| - 1], id);
      var m, l, s' := Exec(c, s0, ls[..|ls| - 1]).value, ls[|ls| - 1], Exec(c, s0, ls).value;
      StepFacts(c, m, l, s');
      RowBalancedStep(c, m, l, s', id, Count(c, s0, ls[..|ls| - 1], id));
      EventsBalancedStep(c, m, l, s', id, Count(c, s0, ls[..|ls| - 1], id));
    }
  }

  /** The same, read off the status alone. */
  lemma TerminalWriteOnce(c: Config, s0: State, ls: seq<Label>, id: SubmissionId)
    requires IsInit(s0) && Exec(c, s0, ls).Some? && id in Exec(c, s0, ls).value.rows
    ensures var t := Count(c, s0, ls, id);
            var r := Exec(c, s0, ls).value.rows[id];
            && t.finishes + t.failures == One(r.status.Terminal())
            && (r.status.Queued? ==> t.starts == t.recoveries)
            && (r.status.MockProcessing? || r.status.Finished? ==> t.starts == t.recoveries + 1)
            && t.recoveries <= t.starts <= t.recoveries + 1
  {
    Conserved(c, s0, ls, id);
  }
}
