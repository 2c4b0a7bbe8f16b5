/**
 Timed single ownership. With one clock, and workers whose claim-to-start and final-write latencies together stay
 below WorkerStaleAfter - WorkerHardTimeout, recovery and autoclaim never hit a live attempt, so the attempts on one
 submission never overlap.
 */
module Ownership {
  import opened Protocol
  import opened Steps
  import opened NoLoss

  /** The latency of a worker from the claim to the commit of the start, and that of its final write after the
      hard timeout expired. */
  datatype Latency = Latency(claimToStart: nat, write: nat)

  predicate WithinMargin(c: Config, lat: Latency) {
    c.staleAfter > c.hardTimeout && lat.claimToStart + lat.write < c.staleAfter - c.hardTimeout
  }

  /** Every attempt that is still live is younger than its deadline. */
  ghost predicate Timely(c: Config, lat: Latency, s: State) {
    forall w :: w in s.workers ==> PcTimely(c, lat, s.now, s.workers[w])
  }

  predicate PcTimely(c: Config, lat: Latency, now: nat, pc: WorkerPc) {
    && (pc.Claimed? ==> now <= pc.claimedAt + lat.claimToStart)
    && (pc.Started? ==> now <= pc.committedAt + c.hardTimeout + lat.write)
  }

  /** A run all of whose states are timely. */
  ghost predicate TimelyRun(c: Config, lat: Latency, s0: State, ls: seq<Label>) {
    && Exec(c, s0, ls).Some?
    && forall k :: 0 <= k <= |ls| ==> Exec(c, s0, ls[..k]).Some? && Timely(c, lat, Exec(c, s0, ls[..k]).value)
  }

  /** The attempt's row carries the attempt's start time, and its entry was not claimed again since. */
  ghost predicate Owns(c: Config, lat: Latency, s: State, pc: WorkerPc) {
    && (pc.Attempting() ==>
         && pc.entry < |s.stream|
         && pc.claimedAt <= s.now
         && (s.stream[pc.entry].state.Pending? ==> s.stream[pc.entry].state.deliveredAt == pc.claimedAt)
         && !s.stream[pc.entry].state.New?)
    && (pc.Started? ==>
         && s.stream[pc.entry].submission in s.rows
         && s.rows[s.stream[pc.entry].submission].status.MockProcessing?
         && s.rows[s.stream[pc.entry].submission].startedAt == Some(pc.startedAt)
         && pc.claimedAt <= pc.startedAt && pc.committedAt <= pc.claimedAt + lat.claimToStart)
  }

  ghost predicate Apart(s: State, w: nat, w': nat)
    requires w in s.workers && w' in s.workers
  {
    && (s.workers[w].Attempting() && s.workers[w'].Attempting() ==> s.workers[w].entry != s.workers[w'].entry)
    && (s.workers[w].Started? && s.workers[w'].Started?
        && s.workers[w].entry < |s.stream| && s.workers[w'].entry < |s.stream| ==>
        s.stream[s.workers[w].entry].submission != s.stream[s.workers[w'].entry].submission)
  }

  ghost predicate SingleOwner(c: Config, lat: Latency, s: State) {
    && (forall w :: w in s.workers ==> Owns(c, lat, s, s.workers[w]))
    && (forall w, w' :: w in s.workers && w' in s.workers && w != w' ==> Apart(s, w, w'))
  }

  /** Autoclaim never returns an entry that a live worker holds. */
  lemma AutoClaimSparesLive(c: Config, lat: Latency, s: State, l: Label, s': State, w: nat)
    requires WithinMargin(c, lat) && Timely(c, lat, s) && SingleOwner(c, lat, s)
    requires Facts(c, s, l, s') && l.AutoClaim? && w in s.workers && s.workers[w].Attempting()
    ensures s.workers[w].entry != l.entry
  {
    assert EntryFact(c, s, l, s', l.entry);
    assert Owns(c, lat, s, s.workers[w]);
    assert PcTimely(c, lat, s.now, s.workers[w]);
  }

  /** Recovery never re-queues a row whose attempt is still live. */
  lemma RecoverSparesLive(c: Config, lat: Latency, s: State, l: Label, s': State, w: nat)
    requires WithinMargin(c, lat) && Timely(c, lat, s) && SingleOwner(c, lat, s)
    requires Facts(c, s, l, s') && l.Recover? && w in s.workers && s.workers[w].Started?
    ensures s.stream[s.workers[w].entry].submission != l.id
  {
    assert RowFact(c, s, l, s', l.id);
    assert Owns(c, lat, s, s.workers[w]);
    assert PcTimely(c, lat, s.now, s.workers[w]);
  }

  /** The row of a live attempt is changed by its own worker only. */
  lemma RowOfLiveAttempt(c: Config, lat: Latency, s: State, l: Label, s': State, w: nat)
    requires WithinMargin(c, lat) && Timely(c, lat, s) && SingleOwner(c, lat, s) && Facts(c, s, l, s')
    requires w in s.workers && s.workers[w].Started? && !ActsFor(l, w)
    ensures var id := s.stream[s.workers[w].entry].submission;
            id in s.rows && id in s'.rows && s'.rows[id] == s.rows[id]
  {
    var id := s.stream[s.workers[w].entry].submission;
    assert Owns(c, lat, s, s.workers[w]);
    assert RowFact(c, s, l, s', id);
    if l.Recover? {
      RecoverSparesLive(c, lat, s, l, s', w);
    }
    if (l.Finish? || l.TimeOut?) && l.worker in s.workers {
      assert Apart(s, w, l.worker);
    }
  }

  /** A start writes its transaction time into the row it starts. */
  lemma RowOfNewAttempt(c: Config, s: State, l: Label, s': State, w: nat)
    requires Facts(c, s, l, s') && w in s.workers && w in s'.workers && s'.workers[w].Started? && !s.workers[w].Started?
    ensures l.TryStart? && s.workers[w].Claimed? && s.workers[w].entry == s'.workers[w].entry < |s.stream|
    ensures s'.workers[w].startedAt == l.txTime && s.workers[w].claimedAt == s'.workers[w].claimedAt <= l.txTime
    ensures s'.workers[w].committedAt == s.now
    ensures var id := s.stream[s.workers[w].entry].submission;
            id in s'.rows && s'.rows[id].status.MockProcessing? && s'.rows[id].startedAt == Some(l.txTime)
  {
    assert WorkerFact(c, s, l, s', w);
    assert RowFact(c, s, l, s', s.stream[s.workers[w].entry].submission);
  }

  lemma OwnsStep(c: Config, lat: Latency, s: State, l: Label, s': State, w: nat)
    requires WithinMargin(c, lat) && Timely(c, lat, s) && SingleOwner(c, lat, s)
    requires WellFormed(s) && Facts(c, s, l, s') && w in s'.workers
    ensures Owns(c, lat, s', s'.workers[w])
  {
    assert WorkerFact(c, s, l, s', w);
    assert WorkerOk(s, s.workers[w]) && Owns(c, lat, s, s.workers[w]) && PcTimely(c, lat, s.now, s.workers[w]);
    if s'.workers[w].Attempting() {
      var e := s'.workers[w].entry;
      assert EntryFact(c, s, l, s', e);
      if l.AutoClaim? && s.workers[w].Attempting() {
        AutoClaimSparesLive(c, lat, s, l, s', w);
      }
      if s'.workers[w].Started? {
        if s.workers[w].Started? {
          RowOfLiveAttempt(c, lat, s, l, s', w);
        } else {
          RowOfNewAttempt(c, s, l, s', w);
        }
      }
    }
  }

  lemma ApartStep(c: Config, lat: Latency, s: State, l: Label, s': State, w: nat, w': nat)
    requires WithinMargin(c, lat) && Timely(c, lat, s) && SingleOwner(c, lat, s)
    requires WellFormed(s) && Facts(c, s, l, s') && w in s'.workers && w' in s'.workers && w != w'
    requires !ActsFor(l, w')
    ensures Apart(s', w, w')
  {
    assert WorkerFact(c, s, l, s', w) && WorkerFact(c, s, l, s', w');
    assert WorkerOk(s, s.workers[w]) && WorkerOk(s, s.workers[w']);
    assert Apart(s, w, w') && Owns(c, lat, s, s.workers[w']);
    if l.AutoClaim? && s.workers[w'].Attempting() {
      AutoClaimSparesLive(c, lat, s, l, s', w');
    }
    if s'.workers[w].Started? && s'.workers[w'].Started? {
      assert EntryFact(c, s, l, s', s.workers[w'].entry);
      assert EntryFact(c, s, l, s', s.workers[w].entry);
    }
  }

  lemma SingleOwnerStep(c: Config, lat: Latency, s: State, l: Label, s': State)
    requires WithinMargin(c, lat) && Timely(c, lat, s) && SingleOwner(c, lat, s)
    requires WellFormed(s) && Facts(c, s, l, s')
    ensures SingleOwner(c, lat, s')
  {
    forall w | w in s'.workers ensures Owns(c, lat, s', s'.workers[w]) {
      OwnsStep(c, lat, s, l, s', w);
    }
    forall w, w' | w in s'.workers && w' in s'.workers && w != w' ensures Apart(s', w, w') {
      if ActsFor(l, w') {
        ApartStep(c, lat, s, l, s', w', w);
      } else {
        ApartStep(c, lat, s, l, s', w, w');
      }
    }
  }

  /** In every timely run no two workers ever attempt the same submission at once, every live attempt owns its
      processing row, and every enabled recovery or autoclaim is of a row or entry without a live worker. */
  lemma {:induction false} AttemptsNeverOverlap(c: Config, lat: Latency, s0: State, ls: seq<Label>)
    requires WithinMargin(c, lat) && IsInit(s0) && TimelyRun(c, lat, s0, ls)
    ensures SingleOwner(c, lat, Exec(c, s0, ls).value)
    decreases |ls|
  {
    if ls != [] {
      var pre := ls[..|ls| - 1];
      assert TimelyRun(c, lat, s0, pre) by {
        forall k | 0 <= k <= |pre| ensures Exec(c, s0, pre[..k]).Some? && Timely(c, lat, Exec(c, s0, pre[..k]).value) {
          assert pre[..k] == ls[..k];
        }
      }
      AttemptsNeverOverlap(c, lat, s0, pre);
      var m, s' := Exec(c, s0, pre).value, Exec(c, s0, ls).value;
      InvRun(c, s0, pre);
      assert pre[..|pre|] == pre;
      StepFacts(c, m, ls[|ls| - 1], s');
      SingleOwnerStep(c, lat, m, ls[|ls| - 1], s');
    }
  }

  /** So the next step of a timely run, if it is a recovery or an autoclaim, is of a row or entry without a live worker. */
  lemma LiveAttemptsAreSpared(c: Config, lat: Latency, s0: State, ls: seq<Label>, s: State, l: Label, s': State, w: nat)
    requires WithinMargin(c, lat) && IsInit(s0) && TimelyRun(c, lat, s0, ls) && Exec(c, s0, ls) == Some(s)
    requires Apply(c, s, l) == Some(s') && w in s.workers && s.workers[w].Attempting()
    ensures l.AutoClaim? ==> l.entry != s.workers[w].entry
    ensures l.Recover? && s.workers[w].Started? ==>
              s.workers[w].entry < |s.stream| && l.id != s.stream[s.workers[w].entry].submission
  {
    AttemptsNeverOverlap(c, lat, s0, ls);
    assert ls[..|ls|] == ls;
    StepFacts(c, s, l, s');
    if l.AutoClaim? {
      AutoClaimSparesLive(c, lat, s, l, s', w);
    }
    if l.Recover? && s.workers[w].Started? {
      RecoverSparesLive(c, lat, s, l, s', w);
    }
  }
}
