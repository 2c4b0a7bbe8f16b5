/**
 Why a creation is ordered at its queued-count read: between that read and the commit a recovery may refill the queue,
 so that at the commit the atomic creation would be refused, although the transaction commits. This can happen exactly
 if the queue limit of a participant is below the global capacity.
 */
module CommitOrder {
  import opened Protocol
  import opened Steps
  import opened Transactions
  import opened Moves
  import opened SerialRuns
  import opened Linearizability
  import Quota

  /** The atomic step of a creation that is about to commit. */
  function CreationOf(tx: Tx): Label
    requires tx.Creator? && tx.cpc.CommitCreate?
  {
    Create(tx.id, tx.participant, tx.cpc.event, tx.txTime)
  }

  /** One row of `p` processing for as long as makes it stale, and all but one of the places in its queue taken. */
  ghost predicate StaleRestQueued(c: Config, s: State, p: ParticipantId) {
    && Quota.Stage(s, p, 1, c.maxQueued, c.maxQueued)
    && s.now >= c.staleAfter && StaleRow(s, Quota.Name(0), s.now - c.staleAfter)
  }

  lemma StaleAfterWaiting(c: Config, s: State, p: ParticipantId)
    requires Quota.Stage(s, p, 1, c.maxQueued, c.maxQueued)
    ensures StaleRestQueued(c, s.(now := s.now + c.staleAfter), p)
  {
  }

  lemma SerialStaleRestQueued(c: Config, s0: State, p: ParticipantId) returns (ls: seq<Label>, s: State)
    requires c.Valid() && c.maxQueued < c.maxActive && IsInit(s0) && 0 in s0.workers && 0 in s0.dispatchers
    ensures SerialRun(c, s0, ls, s) && StaleRestQueued(c, s, p)
  {
    hide Apply;
    var a, s1 := Quota.StartMany(c, s0, p, 1);
    var b, s2 := Quota.QueueMany(c, s1, p, 1, c.maxQueued - 1, 1);
    var d;
    d, s := SerialWait(c, s2, c.staleAfter);
    StaleAfterWaiting(c, s2, p);
    SerialJoin(c, s0, a, s1, b, s2);
    SerialJoin(c, s0, a + b, s2, d, s);
    ls := a + b + d;
  }

  lemma SerialWait(c: Config, s: State, delta: nat) returns (ls: seq<Label>, s': State)
    ensures SerialRun(c, s, ls, s') && s' == s.(now := s.now + delta)
  {
    s' := s.(now := s.now + delta);
    SerialOne(c, s, Tick(delta), s');
    ls := [Tick(delta)];
  }

  lemma OneStaleRestQueued(c: Config, h: Hash, s0: State, p: ParticipantId) returns (ms: seq<MicroLabel>, m: Micro)
    requires c.Valid() && c.maxQueued < c.maxActive && IsInit(s0) && 0 in s0.workers && 0 in s0.dispatchers
    ensures MicroExec(c, h, Start(s0), ms) == Some(m) && m.txs == map[] && StaleRestQueued(c, m.base, p)
  {
    hide Apply;
    var ls, s := SerialStaleRestQueued(c, s0, p);
    ms, m := SerialLifts(c, h, Start(s0), ls, s);
  }

  /** With one more row of its participant in the queue, the creation is refused. */
  lemma RefusedAfterRecovery(c: Config, s: State, p: ParticipantId, ev: nat, tx: Tx)
    requires StaleRestQueued(c, s, p) && c.maxQueued > 0
    requires tx.Creator? && tx.participant == p && tx.cpc.CommitCreate?
    ensures Apply(c, WithRecovered(s, Quota.Name(0), ev, s.now), CreationOf(tx)) == None
  {
    var n := c.maxQueued;
    var rows := WithRecovered(s, Quota.Name(0), ev, s.now).rows;
    Quota.StageCounts(s, p, 1, n, n);
    assert QueuedOf(rows, p) == QueuedOf(s.rows, p) + {Quota.Name(0)};
    assert Quota.Name(0) !in QueuedOf(s.rows, p);
  }

  lemma RoomBefore(c: Config, s: State, p: ParticipantId)
    requires StaleRestQueued(c, s, p) && 0 < c.maxQueued < c.maxActive
    ensures |Active(s.rows)| < c.maxActive && |QueuedOf(s.rows, p)| < c.maxQueued
    ensures Quota.Name(c.maxQueued) !in s.rows
  {
    Quota.StageCounts(s, p, 1, c.maxQueued, c.maxQueued);
    Quota.NameFresh(s, p, 1, c.maxQueued, c.maxQueued);
  }

  /** If the queue limit is below the capacity, some statement-level run reaches a creation that commits next although
      the atomic creation, placed there, would be refused. So no proof can place creations at their commits. */
  lemma CommitIsTooLate(c: Config, h: Hash, s0: State, p: ParticipantId, x: nat)
    returns (ms: seq<MicroLabel>, m: Micro)
    requires c.Valid() && c.maxQueued < c.maxActive
    requires IsInit(s0) && 0 in s0.workers && 0 in s0.dispatchers
    ensures MicroExec(c, h, Start(s0), ms) == Some(m)
    ensures x in m.txs && m.txs[x].Creator? && m.txs[x].cpc.CommitCreate? && StepTx(c, h, m, x).Some?
    ensures Apply(c, m.base, CreationOf(m.txs[x])) == None
  {
    hide Apply;
    var a, m1 := OneStaleRestQueued(c, h, s0, p);
    RoomBefore(c, m1.base, p);
    var b, m2 := CreateUpToCommit(c, h, m1, x, Quota.Name(c.maxQueued), p);
    var d;
    d, m := RecoverAmongCreations(c, h, m2, x + 1, Quota.Name(0), m1.base.now - c.staleAfter);
    RefusedAfterRecovery(c, m1.base, p, m2.nextEvent, m2.txs[x]);
    MicroJoin(c, h, Start(s0), a, m1, b, m2);
    MicroJoin(c, h, Start(s0), a + b, m2, d, m);
    ms := a + b + d;
  }

  lemma {:induction false} ActiveFalls(c: Config, s: State, ls: seq<Label>)
    requires Exec(c, s, ls).Some? && NoCreates(ls)
    ensures |Active(Exec(c, s, ls).value.rows)| <= |Active(s.rows)|
    decreases |ls|
  {
    if ls != [] {
      ActiveFalls(c, s, ls[..|ls| - 1]);
      var m, s' := Exec(c, s, ls[..|ls| - 1]).value, Exec(c, s, ls).value;
      StepFacts(c, m, ls[|ls| - 1], s');
      Quota.ActiveStep(c, m, ls[|ls| - 1], s');
    }
  }

  /** Otherwise the capacity alone admits every creation at its commit: nobody else can have used up what it read, as it
      holds the global lock, and a full queue would be a full system. */
  lemma CommitIsInTime(c: Config, h: Hash, s0: State, ms: seq<MicroLabel>, m: Micro, x: nat)
    requires c.maxActive <= c.maxQueued && IsInit(s0) && MicroExec(c, h, Start(s0), ms) == Some(m)
    requires x in m.txs && m.txs[x].Creator? && m.txs[x].cpc.CommitCreate?
    ensures Apply(c, m.base, CreationOf(m.txs[x])).Some?
  {
    MicroInvRun(c, h, s0, ms);
    var tx := m.txs[x];
    assert TxOk(c, s0, m, tx);
    var mark := tx.cpc.mark;
    var read := Exec(c, s0, m.log[..mark]).value;
    assert m.log == m.log[..mark] + m.log[mark..];
    ExecConcat(c, s0, m.log[..mark], m.log[mark..]);
    ActiveFalls(c, read, m.log[mark..]);
    assert Drawn(tx) == Some(tx.cpc.event);
    Quota.SubsetSize(QueuedOf(m.base.rows, tx.participant), Active(m.base.rows));
  }
}
