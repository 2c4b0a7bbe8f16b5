/**
 Deadlock freedom of the statement-level machine: the waits-for relation is acyclic in every reachable state, for every
 hash and every collision of lock keys, and some unfinished transaction can always take its next statement.
 */
module Deadlock {
  import opened Protocol
  import opened Transactions
  import opened Linearizability

  /** The advisory key that a transaction's next statement asks for. */
  function WantsKey(h: Hash, tx: Tx): Option<int> {
    match tx
    case Creator(_, p, _, pc) =>
      if pc.NeedParticipant? then Some(h(p)) else if pc.NeedGlobal? then Some(GLOBAL_KEY) else None
    case Starter(_, _, _, pc) => if pc.LockParticipant? then Some(h(pc.p)) else None
    case Recoverer(_, _, _, _) => None
  }

  /** The row lock that its next statement asks for. */
  function WantsRow(s: State, tx: Tx): Option<SubmissionId> {
    match tx
    case Creator(_, _, _, _) => None
    case Starter(_, id, _, pc) => if pc.LockRow? then Some(id) else None
    case Recoverer(id, before, _, pc) => if pc.UpdateStale? && StaleRow(s, id, before) then Some(id) else None
  }

  /** Transaction `x` cannot take its next statement before `y` ends. A lock one already holds is granted again. */
  predicate WaitsFor(h: Hash, m: Micro, x: nat, y: nat) {
    && x in m.txs && y in m.txs && x != y
    && ((WantsKey(h, m.txs[x]).Some? && HoldsKey(h, m.txs[y], WantsKey(h, m.txs[x]).value))
        || (WantsRow(m.base, m.txs[x]).Some? && HoldsRow(m.txs[y], WantsRow(m.base, m.txs[x]).value)))
  }

  /** Participant key before global key before row. A creator whose participant hashes to the global key already holds
      what it asks for next, and so counts with those that wait for nothing. */
  function Level(h: Hash, tx: Tx): nat {
    match tx
    case Creator(_, p, _, pc) =>
      if pc.NeedParticipant? then 0 else if pc.NeedGlobal? && h(p) != GLOBAL_KEY then 1 else 3
    case Starter(_, _, _, pc) =>
      if pc.ReadRow? || pc.LockParticipant? then 0 else if pc.LockRow? then 2 else 3
    case Recoverer(_, _, _, pc) => if pc.UpdateStale? then 2 else 3
  }

  /** Every wait is for a transaction further up the lock order, so there is no cycle. */
  lemma WaitsClimb(c: Config, h: Hash, s0: State, m: Micro, x: nat, y: nat)
    requires MicroInv(c, h, s0, m) && WaitsFor(h, m, x, y)
    ensures Level(h, m.txs[x]) < Level(h, m.txs[y])
  {
    var tx := m.txs[x];
    assert tx.Creator? && tx.cpc.NeedGlobal? ==> HoldsKey(h, tx, h(tx.participant));
  }

  /** A chain of transactions each waiting for the next. */
  ghost predicate WaitChain(h: Hash, m: Micro, xs: seq<nat>) {
    forall i :: 0 <= i < |xs| - 1 ==> WaitsFor(h, m, xs[i], xs[i + 1])
  }

  lemma {:induction false} ChainClimbs(c: Config, h: Hash, s0: State, m: Micro, xs: seq<nat>)
    requires MicroInv(c, h, s0, m) && |xs| >= 2 && WaitChain(h, m, xs)
    ensures xs[0] in m.txs && xs[|xs| - 1] in m.txs
    ensures Level(h, m.txs[xs[0]]) + |xs| - 1 <= Level(h, m.txs[xs[|xs| - 1]])
    decreases |xs|
  {
    var n := |xs|;
    WaitsClimb(c, h, s0, m, xs[n - 2], xs[n - 1]);
    if n > 2 {
      ChainClimbs(c, h, s0, m, xs[..n - 1]);
    }
  }

  /** No deadlock: in a reachable state no chain of waits returns to its start, and none is longer than four. */
  lemma NoDeadlock(c: Config, h: Hash, s0: State, ms: seq<MicroLabel>, m: Micro, xs: seq<nat>)
    requires IsInit(s0) && MicroExec(c, h, Start(s0), ms) == Some(m)
    requires |xs| >= 2 && WaitChain(h, m, xs)
    ensures xs[0] != xs[|xs| - 1] && |xs| <= 4
  {
    MicroInvRun(c, h, s0, ms);
    ChainClimbs(c, h, s0, m, xs);
  }

  /** A transaction that waits for nobody can take its next statement. */
  lemma UnblockedSteps(c: Config, h: Hash, s0: State, m: Micro, x: nat)
    requires MicroInv(c, h, s0, m) && x in m.txs && (forall y :: !WaitsFor(h, m, x, y))
    ensures StepTx(c, h, m, x).Some?
  {
    var tx := m.txs[x];
    assert TxOk(c, s0, m, tx);
    if WantsKey(h, tx).Some? {
      forall y | y in m.txs && y != x ensures !HoldsKey(h, m.txs[y], WantsKey(h, tx).value) {
        assert !WaitsFor(h, m, x, y);
      }
    }
    if WantsRow(m.base, tx).Some? {
      forall y | y in m.txs && y != x ensures !HoldsRow(m.txs[y], WantsRow(m.base, tx).value) {
        assert !WaitsFor(h, m, x, y);
      }
    }
  }

  lemma {:induction false} SomeoneSteps(c: Config, h: Hash, s0: State, m: Micro, x: nat) returns (u: nat)
    requires MicroInv(c, h, s0, m) && x in m.txs
    ensures u in m.txs && StepTx(c, h, m, u).Some?
    decreases 3 - Level(h, m.txs[x])
  {
    if y: nat :| WaitsFor(h, m, x, y) {
      WaitsClimb(c, h, s0, m, x, y);
      u := SomeoneSteps(c, h, s0, m, y);
    } else {
      UnblockedSteps(c, h, s0, m, x);
      u := x;
    }
  }

  /** Progress: as long as a transaction is unfinished, one of them can take its next statement. */
  lemma Progress(c: Config, h: Hash, s0: State, ms: seq<MicroLabel>, m: Micro)
    requires IsInit(s0) && MicroExec(c, h, Start(s0), ms) == Some(m) && m.txs != map[]
    ensures exists u :: u in m.txs && StepTx(c, h, m, u).Some?
  {
    MicroInvRun(c, h, s0, ms);
    var x :| x in m.txs;
    var u := SomeoneSteps(c, h, s0, m, x);
  }
}
