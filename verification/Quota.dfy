/**
 The admission limits over every run of the atomic machine. Recovery re-queues rows without a check, so
 `queued(p) <= maxQueued` is not an invariant; the bound that does hold is on queued plus running, and it is sharp.
 */
module Quota {
  import opened Protocol
  import opened Steps
  import opened Moves

  ghost predicate WithinLimits(c: Config, s: State) {
    && |Active(s.rows)| <= c.maxActive
    && (forall p :: ParticipantWithin(c, s.rows, p))
  }

  ghost predicate ParticipantWithin(c: Config, rows: Rows, p: ParticipantId) {
    && |RunningOf(rows, p)| <= c.maxRunning
    && |QueuedOf(rows, p)| + |RunningOf(rows, p)| <= c.maxQueued + c.maxRunning
  }

  lemma SubsetSize<T>(a: set<T>, b: set<T>)
    requires a <= b
    ensures |a| <= |b|
  {
    assert b == a + (b - a);
  }

  /** All rows of `p` that are queued or running. */
  ghost function HeldOf(rows: Rows, p: ParticipantId): set<SubmissionId> {
    set id | id in rows && rows[id].participant == p && !rows[id].status.Terminal()
  }

  lemma HeldSize(rows: Rows, p: ParticipantId)
    ensures |HeldOf(rows, p)| == |QueuedOf(rows, p)| + |RunningOf(rows, p)|
  {
    assert HeldOf(rows, p) == QueuedOf(rows, p) + RunningOf(rows, p);
    assert QueuedOf(rows, p) !! RunningOf(rows, p);
  }

  /** Only a creation raises the number of active rows, and only by its own row. */
  lemma ActiveStep(c: Config, s: State, l: Label, s': State)
    requires Facts(c, s, l, s')
    ensures Active(s'.rows) <= Active(s.rows) + (if l.Create? then {l.id} else {})
    ensures !l.Create? ==> |Active(s'.rows)| <= |Active(s.rows)|
    ensures |Active(s'.rows)| <= |Active(s.rows)| + 1
  {
    forall id | id in Active(s'.rows) ensures id in Active(s.rows) + (if l.Create? then {l.id} else {}) {
      assert RowFact(c, s, l, s', id);
    }
    SubsetSize(Active(s'.rows), Active(s.rows) + (if l.Create? then {l.id} else {}));
    if !l.Create? {
      assert Active(s.rows) + {} == Active(s.rows);
    }
  }

  /** The step writes a terminal status. */
  predicate EndsRow(s: State, l: Label, id: SubmissionId) { FinishesRow(s, l, id) || FailsRow(s, l, id) }

  predicate Ends(s: State, l: Label) {
    && (l.Finish? || l.TimeOut?) && MayWrite(s, l.worker)
    && EndsRow(s, l, s.stream[s.workers[l.worker].entry].submission)
  }

  /** One row counts as active exactly if it did or was created, and was not ended. */
  lemma ActiveMember(c: Config, s: State, l: Label, s': State, id: SubmissionId)
    requires RowFact(c, s, l, s', id)
    ensures id in Active(s'.rows) <==> (id in Active(s.rows) || CreatesRow(c, s, l, id)) && !EndsRow(s, l, id)
    ensures EndsRow(s, l, id) ==> id in Active(s.rows)
    ensures CreatesRow(c, s, l, id) ==> id !in Active(s.rows)
  {
  }

  lemma SetBalance<T>(a: set<T>, more: set<T>, less: set<T>, b: set<T>)
    requires b == a + more - less && more !! a && less <= a
    ensures |b| == |a| + |more| - |less|
  {
    assert |a + more| == |a| + |more|;
  }

  ghost function CreatedBy(l: Label): set<SubmissionId> { if l.Create? then {l.id} else {} }
  ghost function EndedBy(s: State, l: Label): set<SubmissionId> {
    if Ends(s, l) then {s.stream[s.workers[l.worker].entry].submission} else {}
  }

  lemma EndedByIs(s: State, l: Label, id: SubmissionId)
    ensures id in EndedBy(s, l) <==> EndsRow(s, l, id)
  {
  }

  lemma CreatedByIs(c: Config, s: State, l: Label, s': State, id: SubmissionId)
    requires Apply(c, s, l) == Some(s')
    ensures id in CreatedBy(l) <==> CreatesRow(c, s, l, id)
  {
  }

  /** The number of active rows is exact: a creation adds one, a terminal write takes one away, nothing else counts. */
  lemma ActiveCountStep(c: Config, s: State, l: Label, s': State)
    requires Apply(c, s, l) == Some(s')
    ensures |Active(s'.rows)| == |Active(s.rows)| + (if l.Create? then 1 else 0) - (if Ends(s, l) then 1 else 0)
  {
    hide Apply, Active, EndsRow, Ends;
    var a, b := Active(s.rows), Active(s'.rows);
    forall id
      ensures id in b <==> id in a + CreatedBy(l) - EndedBy(s, l)
      ensures id in EndedBy(s, l) ==> id in a
      ensures id in CreatedBy(l) ==> id !in a
    {
      RowStep(c, s, l, s', id);
      ActiveMember(c, s, l, s', id);
      EndedByIs(s, l, id);
      CreatedByIs(c, s, l, s', id);
    }
    SetBalance(a, CreatedBy(l), EndedBy(s, l), b);
  }

  /** The creations of a run, and its terminal writes. */
  function Creations(ls: seq<Label>): nat {
    if ls == [] then 0 else Creations(ls[..|ls| - 1]) + (if ls[|ls| - 1].Create? then 1 else 0)
  }

  function TerminalWrites(c: Config, s: State, ls: seq<Label>): nat {
    if ls == [] || Exec(c, s, ls[..|ls| - 1]).None? then 0
    else
      TerminalWrites(c, s, ls[..|ls| - 1])
      + (if Ends(Exec(c, s, ls[..|ls| - 1]).value, ls[|ls| - 1]) then 1 else 0)
  }

  /** Over every run the active rows are the creations less the terminal writes: what ends gives its place back. */
  lemma {:induction false} ActiveBalance(c: Config, s0: State, ls: seq<Label>)
    requires IsInit(s0) && Exec(c, s0, ls).Some?
    ensures |Active(Exec(c, s0, ls).value.rows)| == Creations(ls) - TerminalWrites(c, s0, ls)
    decreases |ls|
  {
    hide Apply;
    if ls == [] {
      assert Active(s0.rows) == {};
    } else {
      ActiveBalance(c, s0, ls[..|ls| - 1]);
      ActiveCountStep(c, Exec(c, s0, ls[..|ls| - 1]).value, ls[|ls| - 1], Exec(c, s0, ls).value);
    }
  }

  /** If a row of `p` starts to run, it is by a start that found room, and it is the only one. */
  lemma OnlyStarted(c: Config, s: State, l: Label, s': State, p: ParticipantId, id: SubmissionId)
    requires Facts(c, s, l, s') && id in RunningOf(s'.rows, p) && id !in RunningOf(s.rows, p)
    ensures l.TryStart? && |RunningOf(s.rows, p)| < c.maxRunning
    ensures RunningOf(s'.rows, p) <= RunningOf(s.rows, p) + {id}
  {
    assert RowFact(c, s, l, s', id);
    forall x | x in RunningOf(s'.rows, p) ensures x in RunningOf(s.rows, p) + {id} {
      assert RowFact(c, s, l, s', x);
    }
  }

  /** A participant's running rows grow only by a start that found room. */
  lemma RunningStep(c: Config, s: State, l: Label, s': State, p: ParticipantId)
    requires Facts(c, s, l, s')
    ensures |RunningOf(s'.rows, p)| <= |RunningOf(s.rows, p)|
            || (l.TryStart? && |RunningOf(s'.rows, p)| <= |RunningOf(s.rows, p)| + 1 <= c.maxRunning)
  {
    if id :| id in RunningOf(s'.rows, p) && id !in RunningOf(s.rows, p) {
      OnlyStarted(c, s, l, s', p, id);
      SubsetSize(RunningOf(s'.rows, p), RunningOf(s.rows, p) + {id});
    } else {
      SubsetSize(RunningOf(s'.rows, p), RunningOf(s.rows, p));
    }
  }

  /** Queued and running together grow only by a creation that found room in the queue. */
  lemma HeldStep(c: Config, s: State, l: Label, s': State, p: ParticipantId)
    requires Facts(c, s, l, s')
    ensures |QueuedOf(s'.rows, p)| + |RunningOf(s'.rows, p)| <= |QueuedOf(s.rows, p)| + |RunningOf(s.rows, p)|
            || (l.Create? && |QueuedOf(s'.rows, p)| + |RunningOf(s'.rows, p)|
                             <= |QueuedOf(s.rows, p)| + 1 + |RunningOf(s.rows, p)|
                && |QueuedOf(s.rows, p)| < c.maxQueued)
  {
    HeldSize(s.rows, p);
    HeldSize(s'.rows, p);
    HeldSubset(c, s, l, s', p);
    SubsetSize(HeldOf(s'.rows, p), HeldOf(s.rows, p) + Admitted(l, p));
    if Admitted(l, p) == {} {
      assert HeldOf(s.rows, p) + {} == HeldOf(s.rows, p);
    }
  }

  ghost function Admitted(l: Label, p: ParticipantId): set<SubmissionId> {
    if l.Create? && l.participant == p then {l.id} else {}
  }

  lemma HeldSubset(c: Config, s: State, l: Label, s': State, p: ParticipantId)
    requires Facts(c, s, l, s')
    ensures HeldOf(s'.rows, p) <= HeldOf(s.rows, p) + Admitted(l, p)
  {
    forall x | x in HeldOf(s'.rows, p) ensures x in HeldOf(s.rows, p) + Admitted(l, p) {
      assert RowFact(c, s, l, s', x);
    }
  }

  lemma WithinLimitsStep(c: Config, s: State, l: Label, s': State)
    requires WithinLimits(c, s) && Facts(c, s, l, s')
    ensures WithinLimits(c, s')
  {
    ActiveStep(c, s, l, s');
    forall p ensures ParticipantWithin(c, s'.rows, p) {
      assert ParticipantWithin(c, s.rows, p);
      RunningStep(c, s, l, s', p);
      HeldStep(c, s, l, s', p);
    }
  }

  /** Global capacity and both participant limits hold in every reachable state. */
  lemma {:induction false} LimitsHold(c: Config, s0: State, ls: seq<Label>)
    requires IsInit(s0) && Exec(c, s0, ls).Some?
    ensures WithinLimits(c, Exec(c, s0, ls).value)
    decreases |ls|
  {
    if ls == [] {
      assert Active(s0.rows) == {};
      forall p ensures ParticipantWithin(c, s0.rows, p) {
        assert QueuedOf(s0.rows, p) == {} == RunningOf(s0.rows, p);
      }
    } else {
      LimitsHold(c, s0, ls[..|ls| - 1]);
      var m, l, s' := Exec(c, s0, ls[..|ls| - 1]).value, ls[|ls| - 1], Exec(c, s0, ls).value;
      StepFacts(c, m, l, s');
      WithinLimitsStep(c, m, l, s');
    }
  }

  /** The queue limit taken alone: a recovery keeps it exactly when the participant's queue still has room. */
  lemma RecoveryKeepsQueueLimitIff(c: Config, s: State, l: Label, s': State)
    requires l.Recover? && Apply(c, s, l) == Some(s')
    ensures var p := s.rows[l.id].participant;
            |QueuedOf(s'.rows, p)| <= c.maxQueued <==> |QueuedOf(s.rows, p)| < c.maxQueued
  {
    var p := s.rows[l.id].participant;
    assert QueuedOf(s'.rows, p) == QueuedOf(s.rows, p) + {l.id};
    assert l.id !in QueuedOf(s.rows, p);
  }

  // ----- Sharpness -----

  function Name(i: nat): SubmissionId { SubmissionId(seq(i, _ => 'x')) }

  lemma NameInjective(i: nat, j: nat)
    ensures Name(i) == Name(j) ==> i == j
  {
    assert |Name(i).text| == i && |Name(j).text| == j;
  }

  /** `n` rows of participant `p`, the first `r` of them processing, everything else at rest: worker 0 and
      dispatcher 0 idle, the stream read to its end, event names used up to `k`. */
  ghost predicate Stage(s: State, p: ParticipantId, r: nat, n: nat, k: nat) {
    && 0 in s.workers && s.workers[0].Idle? && s.cursor == |s.stream|
    && (forall d :: d in s.dispatchers ==> s.dispatchers[d].Resting?) && 0 in s.dispatchers
    && (forall ev :: ev in s.outbox ==> ev < k) && |s.outbox| == k
    && r <= n
    && (forall id :: id in s.rows ==> exists i: nat :: i < n && id == Name(i))
    && (forall i: nat :: i < n ==> Name(i) in s.rows && s.rows[Name(i)].participant == p)
    && (forall i: nat :: i < r ==> s.rows[Name(i)].status.MockProcessing? && s.rows[Name(i)].startedAt.Some?
                                   && s.rows[Name(i)].startedAt.value <= s.now)
    && (forall i: nat :: r <= i < n ==> s.rows[Name(i)].status.Queued?)
  }

  function Names(lo: nat, hi: nat): set<SubmissionId> { set i: nat | lo <= i < hi :: Name(i) }

  lemma {:induction false} NamesSize(lo: nat, hi: nat)
    requires lo <= hi
    ensures |Names(lo, hi)| == hi - lo
    decreases hi - lo
  {
    if lo < hi {
      NamesSize(lo, hi - 1);
      assert Names(lo, hi) == Names(lo, hi - 1) + {Name(hi - 1)};
      forall i: nat | lo <= i < hi - 1 ensures Name(i) != Name(hi - 1) {
        NameInjective(i, hi - 1);
      }
    } else {
      assert Names(lo, hi) == {};
    }
  }

  lemma StageCounts(s: State, p: ParticipantId, r: nat, n: nat, k: nat)
    requires Stage(s, p, r, n, k)
    ensures |Active(s.rows)| == n && |QueuedOf(s.rows, p)| == n - r && |RunningOf(s.rows, p)| == r
  {
    NamesSize(0, n);
    NamesSize(r, n);
    NamesSize(0, r);
    assert Active(s.rows) == Names(0, n);
    assert QueuedOf(s.rows, p) == Names(r, n);
    assert RunningOf(s.rows, p) == Names(0, r);
  }

  lemma NameFresh(s: State, p: ParticipantId, r: nat, n: nat, k: nat)
    requires Stage(s, p, r, n, k)
    ensures Name(n) !in s.rows && k !in s.outbox
  {
    forall i: nat | i < n ensures Name(n) != Name(i) {
      NameInjective(n, i);
    }
  }

  /** One more queued row. */
  lemma QueueOne(c: Config, s: State, p: ParticipantId, r: nat, n: nat, k: nat) returns (l: Label, s': State)
    requires Stage(s, p, r, n, k) && n < c.maxActive && n - r < c.maxQueued
    ensures Apply(c, s, l) == Some(s') && SerialLabel(s, l) && Stage(s', p, r, n + 1, k + 1)
    ensures s' == WithCreated(s, Name(n), p, k, s.now)
  {
    StageCounts(s, p, r, n, k);
    NameFresh(s, p, r, n, k);
    l := Create(Name(n), p, k, s.now);
    s' := WithCreated(s, Name(n), p, k, s.now);
    StageAfterCreate(s, p, r, n, k);
  }

  lemma StageAfterCreate(s: State, p: ParticipantId, r: nat, n: nat, k: nat)
    requires Stage(s, p, r, n, k) && Name(n) !in s.rows && k !in s.outbox
    ensures Stage(WithCreated(s, Name(n), p, k, s.now), p, r, n + 1, k + 1)
  {
  }

  /** Claim the first new entry, start it, and crash. */
  lemma CrashAfterStart(c: Config, s: State, id: SubmissionId) returns (ls: seq<Label>, s': State)
    requires 0 in s.workers && s.workers[0].Idle? && s.cursor < |s.stream|
    requires s.stream[s.cursor].submission == id && StartOutcome(s.rows, id, c.maxRunning).StartStarted?
    ensures SerialRun(c, s, ls, s')
    ensures s' == s.(rows := s.rows[id := StartedRow(s.rows[id], s.now)], cursor := s.cursor + 1,
                     stream := s'.stream, workers := s'.workers)
    ensures |s'.stream| == |s.stream| && s'.workers == s.workers
  {
    var e := s.cursor;
    var s5 := WithWorker(WithEntry(s, e, Pending(0, s.now)), 0, Claimed(e, s.now)).(cursor := e + 1);
    assert Apply(c, s, Claim(0)) == Some(s5);
    var s6 := WithStarted(s5, 0, id, e, s.now, s.now);
    assert Apply(c, s5, TryStart(0, s.now)) == Some(s6);
    s' := WithWorker(s6, 0, Idle);
    assert Apply(c, s6, Drop(0)) == Some(s');
    SerialOne(c, s, Claim(0), s5);
    SerialSnoc(c, s, [Claim(0)], s5, TryStart(0, s.now), s6);
    SerialSnoc(c, s, [Claim(0)] + [TryStart(0, s.now)], s6, Drop(0), s');
    ls := [Claim(0)] + [TryStart(0, s.now)] + [Drop(0)];
    assert s'.workers == s.workers;
  }

  /** With nothing queued, create one row, deliver it, start it, and let the worker crash. */
  lemma StartOne(c: Config, s: State, p: ParticipantId, r: nat, k: nat) returns (ls: seq<Label>, s': State)
    requires Stage(s, p, r, r, k) && r < c.maxActive && r < c.maxRunning && 0 < c.maxQueued
    ensures SerialRun(c, s, ls, s') && Stage(s', p, r + 1, r + 1, k + 1)
  {
    var l, s1 := QueueOne(c, s, p, r, r, k);
    SerialOne(c, s, l, s1);
    var a, s2 := DispatchOne(c, s1, 0, k);
    StageCounts(s1, p, r, r + 1, k + 1);
    var b, s3 := CrashAfterStart(c, s2, Name(r));
    SerialJoin(c, s, [l], s1, a, s2);
    SerialJoin(c, s, [l] + a, s2, b, s3);
    ls, s' := [l] + a + b, s3;
    StageAfterStart(s1, p, r, k, s');
  }

  lemma StageAfterStart(s: State, p: ParticipantId, r: nat, k: nat, s': State)
    requires Stage(s, p, r, r + 1, k + 1) && s'.now == s.now && s'.cursor == |s'.stream|
    requires s'.workers == s.workers && s'.dispatchers == s.dispatchers && s'.outbox.Keys == s.outbox.Keys
    requires s'.rows == s.rows[Name(r) := StartedRow(s.rows[Name(r)], s.now)]
    ensures Stage(s', p, r + 1, r + 1, k + 1)
  {
    forall i: nat | i < r ensures s'.rows[Name(i)] == s.rows[Name(i)] {
      NameInjective(i, r);
    }
  }

  lemma {:induction false} StartMany(c: Config, s0: State, p: ParticipantId, r: nat) returns (ls: seq<Label>, s: State)
    requires IsInit(s0) && 0 in s0.workers && 0 in s0.dispatchers && 0 < c.maxQueued
    requires r <= c.maxRunning && r <= c.maxActive
    ensures SerialRun(c, s0, ls, s) && Stage(s, p, r, r, r)
  {
    if r == 0 {
      ls, s := [], s0;
    } else {
      var a, m := StartMany(c, s0, p, r - 1);
      var b, m' := StartOne(c, m, p, r - 1, r - 1);
      SerialJoin(c, s0, a, m, b, m');
      ls, s := a + b, m';
    }
  }

  lemma {:induction false} QueueMany(c: Config, s: State, p: ParticipantId, r: nat, q: nat, k: nat)
    returns (ls: seq<Label>, s': State)
    requires Stage(s, p, r, r, k) && q <= c.maxQueued && r + q <= c.maxActive
    ensures SerialRun(c, s, ls, s') && Stage(s', p, r, r + q, k + q)
  {
    if q == 0 {
      ls, s' := [], s;
    } else {
      var a, m := QueueMany(c, s, p, r, q - 1, k);
      var l, m' := QueueOne(c, m, p, r, r + q - 1, k + q - 1);
      SerialSnoc(c, s, a, m, l, m');
      ls, s' := a + [l], m';
    }
  }

  /** Recover the last of the processing rows. */
  lemma RecoverLast(c: Config, s: State, p: ParticipantId, r: nat, n: nat, k: nat, before: nat)
    returns (l: Label, s': State)
    requires Stage(s, p, r + 1, n, k) && before + c.staleAfter <= s.now && s.rows[Name(r)].startedAt.value <= before
    ensures Apply(c, s, l) == Some(s') && SerialLabel(s, l) && Stage(s', p, r, n, k + 1)
    ensures s' == WithRecovered(s, Name(r), k, s.now) && forall i: nat :: i < r ==> s'.rows[Name(i)] == s.rows[Name(i)]
  {
    hide Stage;
    NameFresh(s, p, r + 1, n, k);
    LastIsStale(s, p, r, n, k, before);
    l := Recover(Name(r), k, before, s.now);
    s' := WithRecovered(s, Name(r), k, s.now);
    StageAfterRecovery(s, p, r, n, k);
  }

  lemma LastIsStale(s: State, p: ParticipantId, r: nat, n: nat, k: nat, before: nat)
    requires Stage(s, p, r + 1, n, k) && s.rows[Name(r)].startedAt.value <= before
    ensures StaleRow(s, Name(r), before) && |s.outbox| == k
  {
  }

  lemma StageAfterRecovery(s: State, p: ParticipantId, r: nat, n: nat, k: nat)
    requires Stage(s, p, r + 1, n, k) && k !in s.outbox
    ensures var s' := WithRecovered(s, Name(r), k, s.now);
            Stage(s', p, r, n, k + 1) && forall i: nat :: i < r ==> s'.rows[Name(i)] == s.rows[Name(i)]
  {
    var s' := WithRecovered(s, Name(r), k, s.now);
    forall i: nat | i < n && i != r ensures s'.rows[Name(i)] == s.rows[Name(i)] {
      NameInjective(i, r);
    }
  }

  /** Recover the processing rows from the last to the first. */
  lemma {:induction false} RecoverMany(c: Config, s: State, p: ParticipantId, r: nat, n: nat, k: nat, before: nat)
    returns (ls: seq<Label>, s': State)
    requires Stage(s, p, r, n, k) && before + c.staleAfter <= s.now
    requires forall i: nat :: i < r ==> s.rows[Name(i)].startedAt.value <= before
    ensures SerialRun(c, s, ls, s') && Stage(s', p, 0, n, k + r)
    decreases r
  {
    if r == 0 {
      ls, s' := [], s;
    } else {
      var l, m := RecoverLast(c, s, p, r - 1, n, k, before);
      var rest, m' := RecoverMany(c, m, p, r - 1, n, k + 1, before);
      SerialOne(c, s, l, m);
      SerialJoin(c, s, [l], m, rest, m');
      ls, s' := [l] + rest, m';
    }
  }

  lemma WaitAndRecover(c: Config, s: State, p: ParticipantId, r: nat, n: nat, k: nat)
    returns (ls: seq<Label>, s': State)
    requires Stage(s, p, r, n, k)
    ensures SerialRun(c, s, ls, s') && Stage(s', p, 0, n, k + r)
  {
    var m := s.(now := s.now + c.staleAfter);
    SerialOne(c, s, Tick(c.staleAfter), m);
    var rest, m' := RecoverMany(c, m, p, r, n, k, s.now);
    SerialJoin(c, s, [Tick(c.staleAfter)], m, rest, m');
    ls, s' := [Tick(c.staleAfter)] + rest, m';
  }

  /** The bound on the sum is sharp, and recovery alone reaches it: from any initial state with a worker and a
      dispatcher, for any r <= maxRunning and q <= maxQueued that the capacity admits, some run ends with r + q
      rows of one participant in status queued. */
  lemma RecoveryFillsQueue(c: Config, s0: State, p: ParticipantId, r: nat, q: nat) returns (ls: seq<Label>)
    requires IsInit(s0) && 0 in s0.workers && 0 in s0.dispatchers && 0 < c.maxQueued
    requires r <= c.maxRunning && q <= c.maxQueued && r + q <= c.maxActive
    ensures Exec(c, s0, ls).Some? && SerialRun(c, s0, ls, Exec(c, s0, ls).value)
    ensures |QueuedOf(Exec(c, s0, ls).value.rows, p)| == r + q
  {
    var a, m1 := StartMany(c, s0, p, r);
    var b, m2 := QueueMany(c, m1, p, r, q, r);
    var d, m3 := WaitAndRecover(c, m2, p, r, r + q, r + q);
    SerialJoin(c, s0, a, m1, b, m2);
    SerialJoin(c, s0, a + b, m2, d, m3);
    ls := a + b + d;
    StageCounts(m3, p, 0, r + q, r + q + r);
  }

  // ----- The queue limit taken alone, over whole runs -----

  lemma QueueLimitHolds(c: Config, s0: State, ls: seq<Label>, p: ParticipantId)
    requires c.maxActive <= c.maxQueued && IsInit(s0) && Exec(c, s0, ls).Some?
    ensures |QueuedOf(Exec(c, s0, ls).value.rows, p)| <= c.maxQueued
  {
    LimitsHold(c, s0, ls);
    var rows := Exec(c, s0, ls).value.rows;
    SubsetSize(QueuedOf(rows, p), Active(rows));
  }

  ghost predicate QueueLimitKept(c: Config, s0: State, ls: seq<Label>, p: ParticipantId) {
    Exec(c, s0, ls).Some? ==> |QueuedOf(Exec(c, s0, ls).value.rows, p)| <= c.maxQueued
  }

  /** The queue limit of a participant holds in every run exactly if the global capacity does not exceed it. */
  lemma QueueLimitHoldsIff(c: Config, s0: State, p: ParticipantId)
    requires c.Valid() && IsInit(s0) && 0 in s0.workers && 0 in s0.dispatchers
    ensures (forall ls :: QueueLimitKept(c, s0, ls, p)) <==> c.maxActive <= c.maxQueued
  {
    if c.maxActive <= c.maxQueued {
      forall ls ensures QueueLimitKept(c, s0, ls, p) {
        if Exec(c, s0, ls).Some? {
          QueueLimitHolds(c, s0, ls, p);
        }
      }
    } else {
      var ls := RecoveryFillsQueue(c, s0, p, 1, c.maxQueued);
      assert !QueueLimitKept(c, s0, ls, p);
    }
  }
}
