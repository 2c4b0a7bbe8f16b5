/**
 Serial runs: when transactions run one after another, every run of the atomic machine is a run of the statements. With
 this the witness of the sharp participant bound is one at the level of statements.
 */
module SerialRuns {
  import opened Protocol
  import opened Steps
  import opened Transactions
  import opened Moves
  import Quota

  // ----- Joining statement-level runs -----

  lemma {:induction false} MicroJoin(c: Config, h: Hash, m: Micro, a: seq<MicroLabel>, n: Micro, b: seq<MicroLabel>, m': Micro)
    requires MicroExec(c, h, m, a) == Some(n) && MicroExec(c, h, n, b) == Some(m')
    ensures MicroExec(c, h, m, a + b) == Some(m')
    decreases |b|
  {
    if b == [] {
      assert a + b == a;
    } else {
      MicroJoin(c, h, m, a, n, b[..|b| - 1], MicroExec(c, h, n, b[..|b| - 1]).value);
      assert (a + b)[..|a + b| - 1] == a + b[..|b| - 1];
    }
  }

  lemma MicroOne(c: Config, h: Hash, m: Micro, l: MicroLabel, m': Micro)
    requires MicroApply(c, h, m, l) == Some(m')
    ensures MicroExec(c, h, m, [l]) == Some(m')
  {
    assert [l][..0] == [];
    assert MicroExec(c, h, m, [l][..0]) == Some(m);
  }

  /** A run by transaction `x` alone, given by the states of its table of transactions. */
  lemma {:induction false} Alone(c: Config, h: Hash, m: Micro, x: nat, states: seq<Micro>) returns (ms: seq<MicroLabel>)
    requires states != [] && states[0] == m
    requires forall i :: 0 <= i < |states| - 1 ==> StepTx(c, h, states[i], x) == Some(states[i + 1])
    ensures MicroExec(c, h, m, ms) == Some(states[|states| - 1])
    decreases |states|
  {
    if |states| == 1 {
      ms := [];
    } else {
      var k := |states| - 1;
      var a := Alone(c, h, m, x, states[..k]);
      assert StepTx(c, h, states[k - 1], x) == Some(states[k - 1 + 1]);
      MicroOne(c, h, states[k - 1], Step(x), states[k]);
      MicroJoin(c, h, m, a, states[k - 1], [Step(x)], states[k]);
      ms := a + [Step(x)];
    }
  }

  // ----- Whole transactions -----

  /** A creation with room, up to its commit. */
  lemma CreateUpToCommit(c: Config, h: Hash, m: Micro, x: nat, id: SubmissionId, p: ParticipantId)
    returns (ms: seq<MicroLabel>, m': Micro)
    requires m.txs == map[] && id !in m.base.rows
    requires |Active(m.base.rows)| < c.maxActive && |QueuedOf(m.base.rows, p)| < c.maxQueued
    ensures MicroExec(c, h, m, ms) == Some(m')
    ensures m' == m.(txs := map[x := Creator(id, p, m.base.now, CommitCreate(|m.log|, m.nextEvent))],
                     nextEvent := m.nextEvent + 1)
  {
    var t, k := m.base.now, |m.log|;
    var first := Begin(x, Creator(id, p, t, NeedParticipant));
    var n0 := To(m, x, first.tx);
    MicroOne(c, h, m, first, n0);
    var n1 := To(n0, x, first.tx.(cpc := NeedGlobal));
    var n2 := To(n1, x, first.tx.(cpc := CountActive));
    var n3 := To(n2, x, first.tx.(cpc := CountQueued));
    var n4 := To(n3, x, first.tx.(cpc := InsertRow(k)));
    var n5 := To(n4, x, first.tx.(cpc := InsertEvent(k)));
    m' := To(n5, x, first.tx.(cpc := CommitCreate(k, m.nextEvent))).(nextEvent := m.nextEvent + 1);
    var rest := Alone(c, h, n0, x, [n0, n1, n2, n3, n4, n5, m']);
    assert m'.txs == map[x := Creator(id, p, t, CommitCreate(k, m.nextEvent))];
    ms := [first] + rest;
    MicroJoin(c, h, m, [first], n0, rest, m');
  }

  lemma CreateAlone(c: Config, h: Hash, m: Micro, x: nat, id: SubmissionId, p: ParticipantId)
    returns (ms: seq<MicroLabel>, m': Micro)
    requires m.txs == map[] && id !in m.base.rows
    requires |Active(m.base.rows)| < c.maxActive && |QueuedOf(m.base.rows, p)| < c.maxQueued
    ensures MicroExec(c, h, m, ms) == Some(m')
    ensures m'.txs == map[] && m'.base == WithCreated(m.base, id, p, m.nextEvent, m.base.now)
    ensures m'.nextEvent == m.nextEvent + 1
  {
    var a, n := CreateUpToCommit(c, h, m, x, id, p);
    m' := StepTx(c, h, n, x).value;
    assert m'.txs == map[];
    MicroOne(c, h, n, Step(x), m');
    MicroJoin(c, h, m, a, n, [Step(x)], m');
    ms := a + [Step(x)];
  }

  /** A start alone, with each of its four outcomes. */
  lemma StartAlone(c: Config, h: Hash, m: Micro, x: nat, w: nat, s': State)
    returns (ms: seq<MicroLabel>, m': Micro)
    requires m.txs == map[] && Apply(c, m.base, TryStart(w, m.base.now)) == Some(s')
    ensures MicroExec(c, h, m, ms) == Some(m')
    ensures m'.txs == map[] && m'.nextEvent == m.nextEvent && m'.base == s'
  {
    var id := m.base.stream[m.base.workers[w].entry].submission;
    var first := Begin(x, Starter(w, id, m.base.now, ReadRow));
    var n0 := To(m, x, first.tx);
    MicroOne(c, h, m, first, n0);
    var states := StartStates(c, h, m, x, w, id, s');
    var rest := Alone(c, h, n0, x, states);
    m' := states[|states| - 1];
    ms := [first] + rest;
    MicroJoin(c, h, m, [first], n0, rest, m');
  }

  /** The states a start alone goes through, statement by statement. */
  lemma StartStates(c: Config, h: Hash, m: Micro, x: nat, w: nat, id: SubmissionId, s': State) returns (states: seq<Micro>)
    requires m.txs == map[] && Apply(c, m.base, TryStart(w, m.base.now)) == Some(s')
    requires m.base.stream[m.base.workers[w].entry].submission == id
    ensures states != [] && states[0] == To(m, x, Starter(w, id, m.base.now, ReadRow))
    ensures forall i :: 0 <= i < |states| - 1 ==> StepTx(c, h, states[i], x) == Some(states[i + 1])
    ensures var m' := states[|states| - 1]; m'.txs == map[] && m'.nextEvent == m.nextEvent && m'.base == s'
  {
    var tx := Starter(w, id, m.base.now, ReadRow);
    var n0 := To(m, x, tx);
    if id !in m.base.rows {
      states := [n0, EndStart(n0, x, s')];
      return;
    }
    var p := m.base.rows[id].participant;
    var n1 := To(n0, x, tx.(spc := LockParticipant(p)));
    var n2 := To(n1, x, tx.(spc := LockRow(p)));
    if !m.base.rows[id].status.Queued? {
      states := [n0, n1, n2, EndStart(n2, x, s')];
      return;
    }
    var n3 := To(n2, x, tx.(spc := CountRunning(p)));
    var rest := CountedStates(c, h, n3, m, x, w, id, s');
    states := [n0, n1, n2] + rest;
  }

  /** The same from the count of the running rows on. */
  lemma CountedStates(c: Config, h: Hash, n3: Micro, m: Micro, x: nat, w: nat, id: SubmissionId, s': State)
    returns (states: seq<Micro>)
    requires m.txs == map[] && Apply(c, m.base, TryStart(w, m.base.now)) == Some(s')
    requires m.base.stream[m.base.workers[w].entry].submission == id
    requires id in m.base.rows && m.base.rows[id].status.Queued?
    requires n3 == m.(txs := map[x := Starter(w, id, m.base.now, CountRunning(m.base.rows[id].participant))])
    ensures states != [] && states[0] == n3
    ensures forall i :: 0 <= i < |states| - 1 ==> StepTx(c, h, states[i], x) == Some(states[i + 1])
    ensures var m' := states[|states| - 1]; m'.txs == map[] && m'.nextEvent == m.nextEvent && m'.base == s'
  {
    var p := m.base.rows[id].participant;
    if |RunningOf(m.base.rows, p)| >= c.maxRunning {
      states := [n3, EndStart(n3, x, s')];
      return;
    }
    var tx := n3.txs[x];
    var n4 := To(n3, x, tx.(spc := UpdateRow(p)));
    var n5 := To(n4, x, tx.(spc := CommitStart(p)));
    states := [n3, n4, n5, EndStart(n5, x, s')];
  }

  /** A recovery while nothing else is open but creations: it waits for none of them. */
  lemma RecoverAmongCreations(c: Config, h: Hash, m: Micro, y: nat, id: SubmissionId, before: nat)
    returns (ms: seq<MicroLabel>, m': Micro)
    requires y !in m.txs && forall x :: x in m.txs ==> m.txs[x].Creator?
    requires StaleRow(m.base, id, before) && before + c.staleAfter <= m.base.now
    ensures MicroExec(c, h, m, ms) == Some(m')
    ensures m'.txs == m.txs && m'.base == WithRecovered(m.base, id, m.nextEvent, m.base.now)
    ensures m'.nextEvent == m.nextEvent + 1 && |m'.log| == |m.log| + 1
  {
    var first := Begin(y, Recoverer(id, before, m.base.now, UpdateStale));
    var n0 := To(m, y, first.tx);
    MicroOne(c, h, m, first, n0);
    var n1 := To(n0, y, first.tx.(rpc := InsertRequeue));
    var n2 := To(n1, y, first.tx.(rpc := CommitRecover(m.nextEvent))).(nextEvent := m.nextEvent + 1);
    m' := StepTx(c, h, n2, y).value;
    var rest := Alone(c, h, n0, y, [n0, n1, n2, m']);
    assert m'.txs == m.txs;
    ms := [first] + rest;
    MicroJoin(c, h, m, [first], n0, rest, m');
  }

  lemma EventNamesKept(c: Config, s: State, l: Label, s': State)
    requires Apply(c, s, l) == Some(s') && !l.Create? && !l.Recover?
    ensures s'.outbox.Keys == s.outbox.Keys && |s'.outbox| == |s.outbox|
  {
    forall ev ensures ev in s'.outbox <==> ev in s.outbox { EventStep(c, s, l, s', ev); }
  }

  lemma DirectAlone(c: Config, h: Hash, m: Micro, l: Label, s': State) returns (ms: seq<MicroLabel>, m': Micro)
    requires m.txs == map[] && Apply(c, m.base, l) == Some(s') && !l.Create? && !l.TryStart? && !l.Recover?
    ensures MicroExec(c, h, m, ms) == Some(m')
    ensures m'.txs == map[] && m'.base == s' && m'.nextEvent == m.nextEvent
  {
    ms := [Direct(l)];
    m' := m.(base := s', log := m.log + [l]);
    MicroOne(c, h, m, Direct(l), m');
  }

  /** One atomic step as a transaction alone, or as the single statement it is. */
  lemma LabelAlone(c: Config, h: Hash, m: Micro, l: Label, s': State) returns (ms: seq<MicroLabel>, m': Micro)
    requires m.txs == map[] && m.nextEvent == |m.base.outbox|
    requires Apply(c, m.base, l) == Some(s') && SerialLabel(m.base, l)
    ensures MicroExec(c, h, m, ms) == Some(m')
    ensures m'.txs == map[] && m'.base == s' && m'.nextEvent == |s'.outbox|
  {
    match l
    case Create(id, p, _, _) =>
      ms, m' := CreateAlone(c, h, m, 0, id, p);
    case TryStart(w, _) =>
      ms, m' := StartAlone(c, h, m, 0, w, s');
      EventNamesKept(c, m.base, l, s');
    case Recover(id, _, before, _) =>
      ms, m' := RecoverAmongCreations(c, h, m, 0, id, before);
    case _ =>
      ms, m' := DirectAlone(c, h, m, l, s');
      EventNamesKept(c, m.base, l, s');
  }

  /** The converse of linearizability: a run whose transactions take their times and event numbers as they come is, its
      transactions one after another, a statement-level run. */
  lemma {:induction false} SerialLifts(c: Config, h: Hash, m: Micro, ls: seq<Label>, s: State)
    returns (ms: seq<MicroLabel>, m': Micro)
    requires m.txs == map[] && m.nextEvent == |m.base.outbox| && SerialRun(c, m.base, ls, s)
    ensures MicroExec(c, h, m, ms) == Some(m')
    ensures m'.txs == map[] && m'.base == s && m'.nextEvent == |s.outbox|
    decreases |ls|
  {
    if ls == [] {
      ms, m' := [], m;
    } else {
      var k := |ls| - 1;
      var mid := Exec(c, m.base, ls[..k]).value;
      assert SerialLabel(mid, ls[k]);
      assert forall i :: 0 <= i < k ==> ls[..k][..i] == ls[..i];
      var a, n := SerialLifts(c, h, m, ls[..k], mid);
      var b;
      b, m' := LabelAlone(c, h, n, ls[k], s);
      MicroJoin(c, h, m, a, n, b, m');
      ms := a + b;
    }
  }

  /** The bound on queued and running together is sharp at the level of statements too. */
  lemma RecoveryFillsQueueByStatements(c: Config, h: Hash, s0: State, p: ParticipantId, r: nat, q: nat)
    returns (ms: seq<MicroLabel>, m: Micro)
    requires IsInit(s0) && 0 in s0.workers && 0 in s0.dispatchers && 0 < c.maxQueued
    requires r <= c.maxRunning && q <= c.maxQueued && r + q <= c.maxActive
    ensures MicroExec(c, h, Start(s0), ms) == Some(m) && |QueuedOf(m.base.rows, p)| == r + q
  {
    var ls := Quota.RecoveryFillsQueue(c, s0, p, r, q);
    ms, m := SerialLifts(c, h, Start(s0), ls, Exec(c, s0, ls).value);
  }
}
