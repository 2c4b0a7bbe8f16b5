/**
 The queue on a Redis Stream with one consumer group that starts at "0". Messages carry named string fields; the
 queue's own messages are never malformed, but others may sit in the stream.
 */
module StreamQueue {
  import opened Protocol

  datatype Message = Message(values: map<string, string>, state: EntryState)

  const SUBMISSION_FIELD := "submission_id"
  const PARTICIPANT_FIELD := "participant_id"

  datatype JobReply = NoJob | Job(entry: nat, submission: string, participant: string) | InvalidItem(entry: nat) | Failed

  /** Which of the two commands of Ack failed; a command may have been applied although its reply was lost. */
  datatype AckFault = AckFine | XAckFailed(applied: bool) | XDelFailed(applied: bool)

  function StringField(values: map<string, string>, key: string): Option<string> {
    if key in values && values[key] != "" then Some(values[key]) else None
  }

  predicate HasBothFields(values: map<string, string>) {
    StringField(values, SUBMISSION_FIELD).Some? && StringField(values, PARTICIPANT_FIELD).Some?
  }

  function Acknowledged(st: EntryState): EntryState { if st.Pending? then Acked else st }

  class Queue {
    var messages: seq<Message>
    var cursor: nat

    constructor ()
      ensures Valid() && messages == [] && cursor == 0
    {
      messages, cursor := [], 0;
    }

    /** Exactly the messages behind the cursor are new. */
    ghost predicate Valid()
      reads this
    {
      && cursor <= |messages|
      && forall e :: 0 <= e < |messages| ==> (messages[e].state.New? <==> cursor <= e)
    }

    /** XADD, unless an id is missing. */
    method Enqueue(submission: string, participant: string, command: Command) returns (ok: bool)
      requires Valid()
      modifies this`messages
      ensures Valid()
      ensures ok <==> submission != "" && participant != "" && command.Answered?
      ensures messages == if submission != "" && participant != "" && !command.Unapplied?
                          then old(messages) + [Message(map["submission_id" := submission,
                                                            "participant_id" := participant], New)]
                          else old(messages)
    {
      if submission == "" || participant == "" || command.Unapplied? { return false; }
      messages := messages + [Message(map[SUBMISSION_FIELD := submission, PARTICIPANT_FIELD := participant], New)];
      ok := command.Answered?;
    }

    /** XREADGROUP with ">" and COUNT 1. */
    method Claim(consumer: nat, now: nat, command: Command, fault: AckFault) returns (job: JobReply)
      requires Valid()
      modifies this
      ensures Valid()
      ensures old(cursor) == |old(messages)| || command.Unapplied? ==>
                && messages == old(messages) && cursor == old(cursor)
                && job == if command.Answered? then NoJob else Failed
      ensures old(cursor) < |old(messages)| && !command.Unapplied? ==>
                && cursor == old(cursor) + 1
                && Handed(Taken(old(messages), old(cursor), consumer, now), old(cursor), command, fault, messages, job)
    {
      if command.Unapplied? { return Failed; }
      if cursor == |messages| { return if command.Answered? then NoJob else Failed; }
      var e := cursor;
      messages := messages[e := messages[e].(state := Pending(consumer, now))];
      cursor := cursor + 1;
      if command.Unanswered? { return Failed; }
      job := ParseOrDiscard(e, fault);
    }

    predicate Stale(e: int, minIdle: nat, now: nat)
      reads this
    {
      0 <= e < |messages| && messages[e].state.Pending? && messages[e].state.deliveredAt + minIdle <= now
    }

    /** Stale, and one of the ten pending messages that a scan from the start looks at. */
    predicate InScan(e: int, minIdle: nat, now: nat)
      reads this
    {
      Stale(e, minIdle, now) && PendingMessages(messages, e) < SCAN_LIMIT
    }

    /** XAUTOCLAIM from 0-0 with COUNT 1: the first message in its scan that has been pending long enough. It finds
        none exactly if the ten pending messages it looks at are all fresh, whatever waits behind them. */
    method ClaimStale(consumer: nat, minIdle: nat, now: nat, command: Command, fault: AckFault) returns (job: JobReply)
      requires Valid()
      modifies this`messages
      ensures Valid()
      ensures (forall e :: !old(InScan(e, minIdle, now))) || command.Unapplied? ==>
                messages == old(messages) && job == if command.Answered? then NoJob else Failed
      ensures !command.Unapplied? ==>
                forall e :: old(InScan(e, minIdle, now)) && (forall f :: 0 <= f < e ==> !old(InScan(f, minIdle, now))) ==>
                  Handed(Taken(old(messages), e, consumer, now), e, command, fault, messages, job)
      ensures job.NoJob? <==> command.Answered? && forall e :: !old(InScan(e, minIdle, now))
    {
      if command.Unapplied? { return Failed; }
      var e, looked := 0, 0;
      while e < |messages| && looked < SCAN_LIMIT && !Stale(e, minIdle, now)
        invariant 0 <= e <= |messages| && looked == PendingMessages(messages, e) <= SCAN_LIMIT
        invariant forall f :: 0 <= f < e ==> !Stale(f, minIdle, now)
      {
        if messages[e].state.Pending? { looked := looked + 1; }
        e := e + 1;
      }
      if e == |messages| || looked == SCAN_LIMIT {
        forall f | e <= f < |messages| ensures !InScan(f, minIdle, now) {
          PendingGrows(messages, e, f);
        }
        return if command.Answered? then NoJob else Failed;
      }
      assert InScan(e, minIdle, now);
      messages := messages[e := messages[e].(state := Pending(consumer, now))];
      if command.Unanswered? { return Failed; }
      job := ParseOrDiscard(e, fault);
    }

    /** A message without both fields is acknowledged and reported, so that it cannot be claimed for ever. */
    method ParseOrDiscard(e: nat, fault: AckFault) returns (job: JobReply)
      requires Valid() && e < cursor && e < |messages| && messages[e].state.Pending?
      modifies this`messages
      ensures Valid() && Handed(old(messages), e, Answered, fault, messages, job)
      ensures var values := old(messages)[e].values;
              job.Job? <==> "submission_id" in values && values["submission_id"] != ""
                            && "participant_id" in values && values["participant_id"] != ""
    {
      var values := messages[e].values;
      var sid := StringField(values, SUBMISSION_FIELD);
      var pid := StringField(values, PARTICIPANT_FIELD);
      if sid.None? || pid.None? {
        var ok := Ack(e, fault);
        return if ok then InvalidItem(e) else Failed;
      }
      job := Job(e, sid.value, pid.value);
    }

    /** XACK, then XDEL. */
    method Ack(e: nat, fault: AckFault) returns (ok: bool)
      requires Valid() && e < cursor && e < |messages|
      modifies this`messages
      ensures Valid() && messages == AfterAck(old(messages), e, fault)
      ensures ok <==> fault.AckFine?
      ensures messages == old(messages)[e := old(messages)[e].(state := messages[e].state)]
      ensures fault.AckFine? || fault == XDelFailed(true) ==> messages[e].state == Gone
      ensures fault == XAckFailed(true) || fault == XDelFailed(false) ==>
                messages[e].state == if old(messages)[e].state.Pending? then Acked else old(messages)[e].state
      ensures fault == XAckFailed(false) ==> messages == old(messages)
    {
      if fault.XAckFailed? && !fault.applied { return false; }
      messages := messages[e := messages[e].(state := Acknowledged(messages[e].state))];
      if fault.XAckFailed? { return false; }
      if fault.XDelFailed? && !fault.applied { return false; }
      messages := messages[e := messages[e].(state := Gone)];
      ok := fault.AckFine?;
    }
  }

  function AfterAck(messages: seq<Message>, e: nat, fault: AckFault): seq<Message>
    requires e < |messages|
  {
    match fault
    case AckFine => messages[e := messages[e].(state := Gone)]
    case XAckFailed(applied) =>
      if applied then messages[e := messages[e].(state := Acknowledged(messages[e].state))] else messages
    case XDelFailed(applied) =>
      messages[e := messages[e].(state := if applied then Gone else Acknowledged(messages[e].state))]
  }

  function JobMessage(submission: string, participant: string): (m: Message)
    ensures submission != "" && participant != "" ==> HasBothFields(m.values)
  {
    Message(map[SUBMISSION_FIELD := submission, PARTICIPANT_FIELD := participant], New)
  }

  function Taken(messages: seq<Message>, e: nat, consumer: nat, now: nat): seq<Message>
    requires e < |messages|
  {
    messages[e := messages[e].(state := Pending(consumer, now))]
  }

  /** What a claim of message `e` ends in: an error, the job it carries, or its discarding. */
  ghost predicate Handed(
    before: seq<Message>, e: nat, command: Command, fault: AckFault, after: seq<Message>, job: JobReply)
  {
    && e < |before|
    && var values := before[e].values;
       if command.Unanswered? then after == before && job == Failed
       else if HasBothFields(values)
       then after == before && job == Job(e, values[SUBMISSION_FIELD], values[PARTICIPANT_FIELD])
       else after == AfterAck(before, e, fault) && job == if fault.AckFine? then InvalidItem(e) else Failed
  }

  function PendingMessages(messages: seq<Message>, e: nat): nat
    requires e <= |messages|
  {
    if e == 0 then 0 else PendingMessages(messages, e - 1) + (if messages[e - 1].state.Pending? then 1 else 0)
  }

  lemma {:induction false} PendingGrows(messages: seq<Message>, e: nat, f: nat)
    requires e <= f <= |messages|
    ensures PendingMessages(messages, e) <= PendingMessages(messages, f)
    decreases f
  {
    if e < f {
      PendingGrows(messages, e, f - 1);
    }
  }

  /** Entry by entry, the abstract stream of the lifecycle machine. */
  function EntryOf(m: Message): Entry
    requires HasBothFields(m.values)
  {
    Entry(SubmissionId(m.values[SUBMISSION_FIELD]), ParticipantId(m.values[PARTICIPANT_FIELD]), m.state)
  }

  ghost predicate AllWellFormed(messages: seq<Message>) {
    forall e :: 0 <= e < |messages| ==> HasBothFields(messages[e].values)
  }

  function StreamOf(messages: seq<Message>): (s: seq<Entry>)
    requires AllWellFormed(messages)
  {
    seq(|messages|, e requires 0 <= e < |messages| => EntryOf(messages[e]))
  }

  lemma {:induction false} PendingAgrees(messages: seq<Message>, e: nat)
    requires AllWellFormed(messages) && e <= |messages|
    ensures PendingMessages(messages, e) == PendingBefore(StreamOf(messages), e)
  {
    if e > 0 {
      PendingAgrees(messages, e - 1);
    }
  }

  /** Whatever backlog the group has, claims hand it out in order, message by message, and end with what Enqueue wrote:
      each becomes pending with the consumer, and nothing is discarded or left. */
  method EnqueueThenClaim(q: Queue, submission: string, participant: string, consumer: nat, now: nat, fault: AckFault)
    returns (jobs: seq<JobReply>)
    requires q.Valid() && AllWellFormed(q.messages) && submission != "" && participant != ""
    modifies q
    ensures var all := old(q.messages) + [JobMessage(submission, participant)];
            && q.Valid() && q.cursor == |q.messages| == |all| && |jobs| == |all| - old(q.cursor)
            && (forall i :: 0 <= i < |jobs| ==> JobOf(all, old(q.cursor) + i, jobs[i]))
            && (forall e :: 0 <= e < |all| ==>
                  q.messages[e] == if e < old(q.cursor) then all[e] else Taken(all, e, consumer, now)[e])
    ensures jobs[|jobs| - 1] == Job(old(|q.messages|), submission, participant)
  {
    var ok := q.Enqueue(submission, participant, Answered);
    ghost var all := q.messages;
    ghost var first := q.cursor;
    assert AllWellFormed(all);
    jobs := [];
    while q.cursor < |q.messages|
      invariant q.Valid() && |q.messages| == |all| && first + |jobs| == q.cursor
      invariant forall e :: 0 <= e < |all| ==>
                  q.messages[e] == if first <= e < q.cursor then Taken(all, e, consumer, now)[e] else all[e]
      invariant forall i :: 0 <= i < |jobs| ==> JobOf(all, first + i, jobs[i])
      decreases |q.messages| - q.cursor
    {
      assert HasBothFields(all[q.cursor].values);
      var job := q.Claim(consumer, now, Answered, fault);
      jobs := jobs + [job];
    }
    assert JobOf(all, |all| - 1, jobs[|jobs| - 1]);
  }

  ghost predicate JobOf(messages: seq<Message>, e: nat, job: JobReply) {
    && e < |messages| && HasBothFields(messages[e].values)
    && job == Job(e, messages[e].values[SUBMISSION_FIELD], messages[e].values[PARTICIPANT_FIELD])
  }

  ghost predicate PendingSince(messages: seq<Message>, lo: nat, hi: nat, consumer: nat, t: nat) {
    hi <= |messages| && forall e :: lo <= e < hi ==> messages[e].state == Pending(consumer, t)
  }

  lemma {:induction false} AllPending(messages: seq<Message>, e: nat)
    requires e <= |messages| && forall f :: 0 <= f < e ==> messages[f].state.Pending?
    ensures PendingMessages(messages, e) == e
  {
    if e > 0 {
      AllPending(messages, e - 1);
    }
  }

  /** Every message of `q` is pending: those before `i` since `t`, the others since 0. */
  ghost predicate Refreshed(q: Queue, n: nat, i: nat, t: nat)
    reads q
  {
    && q.Valid() && |q.messages| == n && AllWellFormed(q.messages)
    && PendingSince(q.messages, 0, i, 0, t) && PendingSince(q.messages, i, n, 0, 0)
  }

  method ClaimMany(n: nat, submission: string, participant: string) returns (q: Queue)
    requires submission != "" && participant != ""
    ensures fresh(q) && Refreshed(q, n, n, 0)
  {
    q := new Queue();
    for i := 0 to n
      invariant fresh(q) && q.Valid() && q.cursor == 0 && |q.messages| == i && AllWellFormed(q.messages)
    {
      var _ := q.Enqueue(submission, participant, Answered);
    }
    for i := 0 to n
      invariant fresh(q) && q.Valid() && q.cursor == i && |q.messages| == n && AllWellFormed(q.messages)
      invariant PendingSince(q.messages, 0, i, 0, 0)
    {
      assert HasBothFields(q.messages[i].values);
      var _ := q.Claim(0, 0, Answered, AckFine);
    }
  }

  method TakeOver(q: Queue, n: nat, i: nat, minIdle: nat)
    requires minIdle > 0 && i < n && i < SCAN_LIMIT && Refreshed(q, n, i, minIdle)
    modifies q
    ensures Refreshed(q, n, i + 1, minIdle)
  {
    AllPending(q.messages, i);
    assert HasBothFields(q.messages[i].values);
    assert q.InScan(i, minIdle, minIdle) && forall f :: 0 <= f < i ==> !q.InScan(f, minIdle, minIdle);
    var _ := q.ClaimStale(0, minIdle, minIdle, Answered, AckFine);
  }

  /** The scan limit does hide stale messages: eleven are claimed and left, the first ten are taken over as soon as they
      are stale, and then the eleventh, as stale as they were, is not found. */
  method TenFreshHideAnEleventh(minIdle: nat, submission: string, participant: string)
    returns (q: Queue, job: JobReply)
    requires minIdle > 0 && submission != "" && participant != ""
    ensures fresh(q) && q.Valid() && |q.messages| == SCAN_LIMIT + 1
    ensures PendingSince(q.messages, 0, SCAN_LIMIT, 0, minIdle)
    ensures PendingSince(q.messages, SCAN_LIMIT, SCAN_LIMIT + 1, 0, 0)
    ensures q.Stale(SCAN_LIMIT, minIdle, minIdle) && (forall e :: !q.InScan(e, minIdle, minIdle)) && job.NoJob?
  {
    q := ClaimMany(SCAN_LIMIT + 1, submission, participant);
    for i := 0 to SCAN_LIMIT
      invariant fresh(q) && Refreshed(q, SCAN_LIMIT + 1, i, minIdle)
    {
      TakeOver(q, SCAN_LIMIT + 1, i, minIdle);
    }
    AllPending(q.messages, SCAN_LIMIT);
    assert forall e :: !q.InScan(e, minIdle, minIdle);
    job := q.ClaimStale(0, minIdle, minIdle, Answered, AckFine);
  }
}
