# HUSTack phase 1: submission lifecycle, rate limits, intake and tokens, in Dafny

HUSTack accepts a C source over HTTP, stores it, and lets a mock worker process it. PostgreSQL holds the submission rows
and a transactional outbox, a Redis Stream with one consumer group carries deliveries, and no step changes both stores
together. This project models that system and proves what it is for: nothing accepted is lost, limits hold under any
interleaving, duplicates and crashes are harmless, and everything can be brought to an end.

`dafny verify dfyconfig.toml` checks the whole project.

## How the model is built

- **`Protocol`** is the lifecycle as a state machine. Rows, outbox events, stream entries, workers and outbox dispatchers
  are the state; each `Label` is one atomic step, including XADD applied without a reply, a lost commit, XACK without XDEL,
  an ignored SetInternalError, and a crash at any point. `Apply` is partial; a run is a sequence of labels. `Steps` says
  once what each label does to each object, and all invariants are proved from that.
- **Main results about the machine**: `NoLoss` (no accepted submission is lost; stream delivery discipline; terminal rows
  are frozen), `Conservation` (events, starts, recoveries and terminal writes balance), `Quota` (limits, and how sharp they
  are), `Drain` (every reachable state can be drained without failures), `Ownership` and `OwnershipMargin` (attempts do not
  overlap, given a latency margin that is exactly the one needed), `OutboxRetry` (retry history of an event, with delays as
  the database stores them), `ScanLimit` (a stale entry that no XAUTOCLAIM finds is reachable).
- **`Transactions`** splits creation, start and recovery into their SQL statements with advisory locks, row locks and
  uncommitted writes at READ COMMITTED. `Linearizability` proves that every statement-level run is equivalent to a run of
  the atomic machine, with each creation placed at its queued-count read; `SerialRuns` proves the converse for transactions
  that run one after another, and so carries witness runs over; `CommitOrder` shows exactly when the commit of a creation
  would be the wrong place. `Deadlock` proves the waits-for relation acyclic and progress, for every lock-key hash and its collisions.
- **`Database`, `StreamQueue`, `Worker`, `Loops`** are the code's own form: classes whose fields the methods change.
  `Worker` and `Loops` prove, for any faults, what one round of each loop does to the rows, the outbox and the stream, and
  that it is a run of the machine's labels. `DrainLoops` runs the loops themselves, without faults, until all is drained.
- **`TokenBucket`, `RetryAfter`** are the Lua script on its two Redis keys and the participant limit built on it.
- **`Storage`, `Submissions`** are the streaming intake and the multipart loop with its file accounting.
- **`Base64`, `Identity`** are the cookie and CSRF formats over an arbitrary keyed hash.

Assumptions: Redis neither loses nor evicts data; a Lua script sees one instant, and the clock that the rate limiter passes
to the script is the one by which Redis expires keys; limits stay fixed during a run and satisfy
`internal/config/config.go:114-122`; rows are never deleted; a reader that has ended keeps ending; removing a file
succeeds; a database error without a lost reply means rollback.

Findings, each stated and proved:

- A participant's queued rows can exceed `MAX_QUEUED_PER_PARTICIPANT`, because recovery re-queues without a check
  (`Quota.RecoveryFillsQueue`). The limit holds in every run exactly if the global capacity does not exceed it
  (`Quota.QueueLimitHoldsIff`); the sum of queued and running never exceeds the sum of both limits.
- A client that waits as Retry-After says is denied at most twice in a row at any rates; no relation between the minute and
  the hour interval is needed (`RetryAfter.DeniedAtMostTwice`).
- The stored source and the row part exactly in two cases: a chmod that fails after the rename, and a creation that was
  committed although its reply is lost (`Submissions.CreateSubmission`).
- The delay of a failed delivery is stored in microseconds. The loader accepts any positive `OUTBOX_MAX_BACKOFF`, but a
  delay is positive exactly if that maximum is above 500 nanoseconds (`OutboxRetry.StoredPositiveIff`), and otherwise the
  event is ready again at once (`OutboxRetry.ReadyAtOnceIff`); it is at most the maximum exactly if the maximum does not
  cap it or is not rounded up (`OutboxRetry.StoredWithinMaximumIff`).
- XAUTOCLAIM from "0-0" with COUNT 1 looks at ten pending entries. A stale entry is missed exactly if those ten are fresh
  (`StreamQueue.Queue.ClaimStale`), which happens (`ScanLimit.StaleIsHidden`, and on the queue itself
  `StreamQueue.TenFreshHideAnEleventh`); the worker then takes a new entry.
- A creation that the queue limit admitted can be one that its commit would refuse exactly if the queue limit is below the
  capacity (`CommitOrder.CommitIsTooLate`, `CommitOrder.CommitIsInTime`).

## Model

| member | source | states |
|---|---|---|
| NoLoss.NoSubmissionLost | internal/database/database.go:173-190 | after any run, with any interleaving, crashes and lost replies, each queued row has an undelivered event that nobody is about to settle, or a new or pending entry that no decided worker holds; all references between the stores hold |
| NoLoss.SafeEventStep | internal/database/database.go:356-389 | an event that covers a row keeps covering it, or the entry that its XADD appended takes over before the event can be marked delivered |
| NoLoss.SafeEntryStep | cmd/mock-worker/main.go:115-149 | an entry that covers a queued row keeps covering it while the row stays queued: no worker decides to acknowledge it |
| NoLoss.FreshEventIsSafe | internal/database/database.go:319-332 | recovery and creation put a row into the queue together with an event that no dispatcher holds |
| NoLoss.EntryForward | internal/queue/queue.go:81-141 | an entry only moves new, pending, acknowledged, gone; its content and place never change |
| NoLoss.AckedNeverRedelivered | internal/queue/queue.go:131-141 | once XACK took effect no later Claim or ClaimStale returns the entry, even if XDEL failed |
| NoLoss.NewEntryClaimedOnce | internal/queue/queue.go:81-95 | XREADGROUP hands a new entry to one worker and never hands it out again in the rest of the run |
| NoLoss.TerminalFrozen | internal/database/database.go:273-284 | a finished or failed row keeps every field under all later steps and duplicate deliveries |
| NoLoss.FinishedUnlessTimedOut | cmd/mock-worker/main.go:132-142 | in a run without timeouts a row that was not terminal is queued, processing, or finished with the result of the mock worker; it never fails |
| Conservation.Conserved | internal/database/database.go:319-332 | over every run: events are one more than recoveries, committed starts are recoveries plus one if the row has a start time, finishes and failures match the status, and the row's fields fit its status |
| Conservation.TerminalWriteOnce | internal/database/database.go:398-405 | at most one terminal write ever succeeds, and exactly one if the row is terminal |
| Quota.LimitsHold | internal/database/database.go:155-167 | in every reachable state the active rows are within the global capacity, running(p) within its limit, and queued(p)+running(p) within the sum of both limits |
| Quota.ActiveStep | internal/database/database.go:151-161 | only a creation raises the number of active rows, and by one |
| Quota.ActiveCountStep | internal/database/database.go:155-157 | the number of active rows is exact: a creation adds one, a terminal write takes one away, and no other step changes it |
| Quota.ActiveBalance | internal/database/database.go:155-157 | over every run the active rows are the creations less the terminal writes |
| Quota.RunningStep | internal/database/database.go:248-255 | running(p) grows only by a start, and never beyond the limit |
| Quota.HeldStep | internal/database/database.go:162-167 | queued(p)+running(p) grows only by a creation that found the queue with room |
| Quota.RecoveryKeepsQueueLimitIff | internal/database/database.go:319 | a recovery leaves queued(p) within the queue limit exactly if it was below the limit before |
| Quota.QueueLimitHoldsIff | internal/database/database.go:155-167 | queued(p) is within the queue limit in every run exactly if the global capacity does not exceed that limit |
| Quota.RecoveryFillsQueue | internal/database/database.go:313-337 | for all r and q within the limits and the capacity, some run of the atomic machine, its transactions one after another, ends with r+q queued rows of one participant, so the bound on the sum is sharp |
| SerialRuns.SerialLifts | internal/database/database.go:137-192 | the converse of linearizability: a run whose transactions take their times and event numbers as they come is a statement-level run |
| SerialRuns.RecoveryFillsQueueByStatements | internal/database/database.go:313-337 | the bound on the sum is reached by a statement-level run, for all r and q within the limits and the capacity, whatever the lock-key hash |
| Drain.CanDrain | cmd/mock-worker/main.go:46-149 | from every reachable state a failure-free run without creations ends with all rows terminal, all events delivered and no entry new or pending; every row that was not terminal ends finished with the mock result, and every other is untouched |
| Drain.DrainedAdmits | internal/database/database.go:155-167 | a drained system admits a creation with a new id from any participant, whatever was created before |
| Drain.SettleWorker | cmd/mock-worker/main.go:115-149 | a worker can always finish what it holds and become idle |
| Drain.RecoverOne | internal/database/database.go:339-340 | a processing row left behind can always be recovered after waiting, as it has a start time |
| Drain.ConsumeOne | cmd/mock-worker/main.go:93-113 | with no row processing, one more entry can be claimed in the order of consumeLoop, decided and deleted, and no row is left processing |
| Drain.TakeEntry | cmd/mock-worker/main.go:94-97 | a live entry can always be taken, and a new one is taken only when the scan finds no stale one |
| DrainLoops.DrainByLoops | cmd/mock-worker/main.go:46-113 | rounds of recoveryLoop, ticks of outboxLoop and rounds of consumeLoop, without faults, terminate with all rows terminal, all events delivered and no message new or pending; every row that was not terminal is finished with the mock result |
| DrainLoops.RestartRests | cmd/mock-worker/main.go:21-44 | every reachable state is, after a restart that loses what the processes held, one that these loops can drain |
| Ownership.AttemptsNeverOverlap | internal/config/config.go:120-122 | in every timely run no two workers attempt one submission at once, and a live attempt's row is processing with that attempt's start time |
| Ownership.LiveAttemptsAreSpared | cmd/mock-worker/main.go:79-95 | in a timely run no recovery hits the row and no autoclaim the entry of a live worker |
| OwnershipMargin.MarginIsSharp | internal/config/config.go:120-122 | if the latencies use up the difference of the two durations, a timely run reaches a state in which recovery takes the row from a live attempt |
| OutboxRetry.BackoffOrder | internal/database/database.go:371-374 | the computed durations are positive, non-decreasing, at most the maximum, and the shift stays below 2^63 nanoseconds |
| OutboxRetry.BackoffDoubles | internal/database/database.go:371-374 | the backoff is one second at first, doubles with each attempt up to the twentieth, and is capped |
| OutboxRetry.StoredDoubles | internal/database/database.go:371-379 | below the cap the stored delays double exactly |
| OutboxRetry.MicrosNearest | internal/database/database.go:379 | the stored delay is the nearest whole microsecond |
| OutboxRetry.StoredOrder | internal/database/database.go:371-379 | the stored delays never shrink and are at most the rounded maximum |
| OutboxRetry.StoredPositiveIff | internal/database/database.go:379 | a stored delay is positive exactly if the maximum is above 500 nanoseconds |
| OutboxRetry.StoredWithinMaximumIff | internal/database/database.go:372-379 | a stored delay is at most the maximum exactly if the maximum does not cap it or is not rounded up |
| OutboxRetry.ZeroDelayIsStored | internal/database/database.go:379 | a maximum of one nanosecond is stored as no delay |
| OutboxRetry.DelayAboveMaximum | internal/database/database.go:379 | a maximum of 1.0000007 seconds is exceeded by the delay of every attempt from the second on |
| OutboxRetry.ReadyAtOnceIff | internal/database/database.go:363-379 | a failed event is ready again at the instant of its attempt exactly if its delay was rounded to zero |
| OutboxRetry.RetryHistory | internal/database/database.go:370-388 | over any run an event is delivered exactly if a delivery was committed, its attempts count the committed failures, and each delay is the stored backoff of its attempt |
| OutboxRetry.DelaysGrow | internal/database/database.go:371-379 | the delays an event was given in a run never shrink and are at most the rounded maximum, and they are positive exactly if the maximum is above 500 nanoseconds |
| OutboxRetry.DelaysDouble | internal/database/database.go:370-379 | in a run, a failure below the cap doubles the delay of the failure before it, and a new event starts with one second |
| Linearizability.Linearizable | internal/database/database.go:137-192 | for every interleaving of statements the committed state is the one the atomic machine reaches by the logged steps, with creations at their queued-count read |
| Linearizability.InsertCreation | internal/database/database.go:162-188 | a creation replayed at its read leads to the same final state with its row and event added |
| Linearizability.CreateCommutes | internal/database/database.go:173-187 | the insertion of a row nobody refers to commutes with every other step of the lifecycle |
| Linearizability.StartIsAtomic | internal/database/database.go:222-270 | the end of a start transaction is the atomic start at that moment, for each of the four outcomes |
| Linearizability.OthersSurviveCreation | internal/database/database.go:147-153 | what every other open transaction has read and locked is still true after a creation commits |
| Linearizability.StatementLevelGuarantees | internal/database/database.go:137-192 | capacity, participant limits and no-loss hold in the committed state of every statement-level run |
| CommitOrder.CommitIsTooLate | internal/database/database.go:162-188 | if the queue limit is below the capacity, a statement-level run reaches a creation that commits next although the atomic creation placed there would be refused |
| CommitOrder.CommitIsInTime | internal/database/database.go:147-188 | otherwise no statement-level run does: every creation about to commit would be admitted there |
| Deadlock.WaitsClimb | internal/database/database.go:147-153 | every wait is for a transaction higher in the order participant key, global key, row |
| Deadlock.NoDeadlock | internal/database/database.go:239-242 | in every reachable state no chain of waits is a cycle, whatever the lock-key hash |
| Deadlock.Progress | internal/database/database.go:222-270 | while a transaction is open, some transaction can take its next statement |
| Database.Tables.CreateSubmissionQueued | internal/database/database.go:137-192 | each answer exactly by the limits, the number of rows queued or processing, the participant's queued rows and the id, in the order of the checks; a queued row without times or result and an event with no attempts appear together or not at all, also when the reply is lost |
| Database.Tables.TryStartSubmission | internal/database/database.go:222-270 | each of the four answers exactly by the row's status and the participant's processing rows, and the only write; an error means either no write or a committed start |
| Database.Tables.FinishSubmissionConditional | internal/database/database.go:272-295 | only a processing row is finished, with the given result, and the reply says whether it was |
| Database.Tables.SetInternalError | internal/database/database.go:398-405 | a queued or processing row fails; any other row is untouched |
| Database.Tables.RecoverStaleSubmission | internal/database/database.go:313-337 | exactly a stale processing row is re-queued, together with a fresh event |
| Database.Tables.ListStaleProcessing | internal/database/database.go:339-354 | the `limit` oldest stale rows, each once, oldest first |
| Database.Tables.SelectNext | internal/database/database.go:363 | the least ready unlocked event, and none only if there is none, so that an event in backoff hides no other |
| Database.Tables.ProcessNextOutbox | internal/database/database.go:356-389 | at most the selected event changes: delivered after an answered XADD, put off by the stored delay after an error, unchanged without a commit |
| StreamQueue.Queue.Enqueue | internal/queue/queue.go:68-79 | empty ids are refused; otherwise one new message with exactly these ids is appended unless the command had no effect, and success is reported only with its reply |
| StreamQueue.Queue.Claim | internal/queue/queue.go:81-95 | the first message behind the cursor becomes pending and is handed out or discarded; none only at the end; an error, with or without effect, hands out nothing |
| StreamQueue.Queue.ClaimStale | internal/queue/queue.go:97-108 | the first stale one of the ten pending messages that the scan looks at is taken over, and none exactly if all ten are fresh |
| StreamQueue.TenFreshHideAnEleventh | internal/queue/queue.go:97-108 | claims lead to ten messages just delivered again before one as old as they were: it is stale, no message is in reach of the scan, and no job is reported |
| ScanLimit.StaleIsHidden | internal/queue/queue.go:97-108 | from every initial state a run reaches one in which an entry of a queued row is stale and no XAUTOCLAIM of any worker returns any entry |
| StreamQueue.Queue.ParseOrDiscard | internal/queue/queue.go:119-129 | a message with both fields becomes the job it names; any other is acknowledged and reported |
| StreamQueue.Queue.Ack | internal/queue/queue.go:131-141 | XACK then XDEL, with the state each failure leaves behind |
| StreamQueue.EnqueueThenClaim | internal/queue/queue.go:68-129 | whatever backlog of well-formed messages there is, claims hand out each of them in order with its own ids, and at the end what Enqueue wrote; each is then pending with the consumer, and none is discarded or left new |
| Worker.Begin | cmd/mock-worker/main.go:115-129 | the row is started exactly if the start was due and committed, the reply is the outcome unless the start failed, and all of it is a run of the machine ending in the worker state the reply calls for |
| Worker.Abandon | cmd/mock-worker/main.go:132-136 | the timeout branch fails the row unless the write was not applied, acknowledges the entry in any case, and is a run of the machine that ends idle |
| Worker.Conclude | cmd/mock-worker/main.go:139-148 | the row is finished exactly if it was processing and the write was applied; the entry is acknowledged exactly if this worker was told that its own write changed the row |
| Worker.ProcessOne | cmd/mock-worker/main.go:115-149 | without faults and in time a submission with room is finished with exactly the mock result, its times and its participant, and its entry deleted; for every outcome and every fault the row, the entry and the time it takes are fixed; it is a run of the machine by this worker alone that leaves it idle, without a timeout unless the time ran out |
| Worker.AttemptSpelledOut | cmd/mock-worker/main.go:121-148 | for an admitted submission, the row field by field and the acknowledgement for every fault, in time or not |
| Worker.TurnedAwaySpelledOut | cmd/mock-worker/main.go:116-129 | a submission that is gone, not queued or over its participant's limit is left as it is, and its entry acknowledged unless the participant was busy or the start failed |
| Worker.AcknowledgedIsNotQueued | cmd/mock-worker/main.go:115-149 | no call acknowledges an entry whose row it leaves queued |
| Worker.FineCall | cmd/mock-worker/main.go:121-148 | without faults a call acknowledges exactly if the participant is not busy, and an acknowledged row is terminal or was being processed elsewhere |
| Loops.Take | cmd/mock-worker/main.go:94-101 | the first stale message of the scan is claimed, a new one only if there is none, and no job is reported exactly if there is neither; each command may fail or lose its reply, and a claim takes effect exactly unless its command was not applied |
| Loops.ConsumeRound | cmd/mock-worker/main.go:93-113 | one round is exactly one call of processOne on the entry that was next, or, without a job, at most a claim; it is a run of the machine |
| Loops.RecoveryRound | cmd/mock-worker/main.go:71-91 | exactly the oldest stale rows up to the limit, but for those whose recovery was not committed, go back to the queue, each with an event of its own, and nothing else changes |
| Loops.OutboxRound | cmd/mock-worker/main.go:57-60 | the least ready event that no other transaction holds is sent as one message and is then delivered, put off or unchanged as the answer and the commit decide; nothing happens exactly if every ready event is held |
| Loops.OutboxTick | cmd/mock-worker/main.go:54-66 | the steps taken are exactly those of a hundred rounds, or of fewer, the last of which failed or after which no event is ready that is not held elsewhere; with every XADD answered each round without an error delivers one event |
| TokenBucket.Keys.Eval | internal/ratelimit/ratelimit.go:111-153 | the script keeps both keys present with one expiry, never meets a missing timestamp, leaves 0 <= now-ts < interval, computes the bucket step and its answer, and a grant lets both keys expire after the given time |
| TokenBucket.RefillKeepsPotential | internal/ratelimit/ratelimit.go:118-139 | neither refill nor expiry raises what the bucket can still grant: an expired bucket would have been full |
| TokenBucket.TokensNow | internal/ratelimit/ratelimit.go:118-139 | an absent or expired bucket is full; any other has gained one token for every whole interval since its stamp, up to the capacity, and its stamp has moved by exactly these intervals |
| TokenBucket.RefillLosesNothing | internal/ratelimit/ratelimit.go:130-139 | unless the cap cuts it off, a refill loses no time and no token |
| TokenBucket.GrantedAtOnce | internal/ratelimit/ratelimit.go:118-147 | of k calls at one instant exactly as many are granted as there are tokens then: full after expiry, else refilled for the idle time |
| TokenBucket.RetryIsLeast | internal/ratelimit/ratelimit.go:148-152 | a denial names the least number of whole seconds, at least one, that covers an interval |
| TokenBucket.CallKeepsOk | internal/ratelimit/ratelimit.go:141-153 | tokens stay between zero and the capacity, and a denial means an empty bucket left untouched |
| TokenBucket.WindowBound | internal/ratelimit/ratelimit.go:104-153 | from any bucket left by earlier calls, calls within [t1,t2] are granted at most capacity + ceil((t2-t1)/interval) times |
| TokenBucket.RateBound | internal/ratelimit/ratelimit.go:104-153 | the same over every call history from an absent key, across any number of expiries |
| TokenBucket.BurstIsCapacity | internal/ratelimit/ratelimit.go:141-147 | at one instant a bucket of k tokens grants exactly k calls |
| RetryAfter.AllowParticipantSubmit | internal/ratelimit/ratelimit.go:37-65 | on the Redis keys, the minute bucket first and the hour bucket only after it granted; an error of either call, with or without effect, gives no answer |
| RetryAfter.IntervalIs | internal/ratelimit/ratelimit.go:104-109 | the interval is the period divided among the tokens of the rate in whole milliseconds, and never zero |
| RetryAfter.AllowInOrder | internal/ratelimit/ratelimit.go:37-65 | a minute denial leaves the hour bucket alone; otherwise the minute token is spent and the hour bucket decides |
| RetryAfter.ErrorsSpelledOut | internal/ratelimit/ratelimit.go:44-60 | which buckets each error leaves changed |
| RetryAfter.ErrorsDecideNothing | internal/ratelimit/ratelimit.go:37-65 | after any errors both buckets are well-formed, an answer is the one without errors, and nothing is allowed without the buckets' answers |
| RetryAfter.DenialFacts | internal/ratelimit/ratelimit.go:149-152 | a denial leaves the bucket as it was, and its Retry-After is at least one interval |
| RetryAfter.AllowKeepsOk | internal/ratelimit/ratelimit.go:37-65 | both buckets stay well-formed after every call |
| RetryAfter.DeniedAtMostTwice | internal/ratelimit/ratelimit.go:37-65 | three calls of a lone client that waits as told are never all denied, for all rates and all buckets |
| RetryAfter.TwoDenialsHappen | internal/ratelimit/ratelimit.go:46-58 | at the default rates, from absent keys: after 177 calls that were all allowed, two denials in a row, 10 and 30 seconds |
| Storage.StripBom | internal/submissions/submissions.go:300-310 | for every chunking exactly a leading EF BB BF is removed and nothing else |
| Storage.WithoutBomIs | internal/submissions/submissions.go:300-310 | EF BB BF in front of any text is removed, once, and any other text is unchanged |
| Storage.JudgeSpelledOut | internal/storage/storage.go:87-123 | a source is good exactly if it fits, was read to its end, has a byte that is not blank and no NUL; and exactly which error each other one meets |
| Storage.JudgeWithoutLimit | internal/storage/storage.go:71 | a limit whose successor is not positive in 64 bits reads nothing, so every source counts as empty |
| Storage.Files.SaveStream | internal/storage/storage.go:58-130 | for every chunking and read-error position the outcome is that of the whole buffer, at most maxSize+1 bytes are consumed, and a temporary file with exactly the content exists only on success |
| Storage.Inspect | internal/storage/storage.go:81-93 | the NUL and content flags over chunks are those of the whole prefix read |
| Submissions.FormOf | internal/submissions/submissions.go:140-219 | a form has content only if it is exactly one part, read to the end, and the content is that part without its byte order mark |
| Submissions.FormIsGoodIff | internal/submissions/submissions.go:133-219 | a form is good exactly if it is one good text or one good ".c" file and its end was read |
| Submissions.RefusalsSpelledOut | internal/submissions/submissions.go:133-219 | the answer to every bad form, by its first part, its second part and its end |
| Submissions.ExtensionIs | internal/storage/storage.go:180-185 | exactly the names that end in .c, in either case, are accepted |
| Submissions.KeyIs | internal/storage/storage.go:41-49 | a generated key is safe; a key with a path or a way up is not |
| Submissions.Commit | internal/storage/storage.go:132-158 | the temporary file becomes the stored source or disappears; an existing source is never replaced |
| Submissions.ReceiveParts | internal/submissions/submissions.go:133-214 | the loop decides as the loop-free description of a form does; on every failure no temporary file is left, otherwise exactly one, with the content |
| Submissions.CreateSubmission | internal/submissions/submissions.go:95-263 | no temporary file is ever left; with a readable upload and an unused id the stored source and the row part exactly if a good form met a chmod that failed after the rename or a creation committed without a reply |
| Base64.RoundTrip | internal/identity/identity.go:68-82 | decoding an unpadded base64url text gives back the encoded bytes |
| Base64.AlphabetIs | internal/identity/identity.go:68-82 | the URL-safe alphabet in its order, and nothing outside it has a value |
| Base64.EncodeAt | internal/identity/identity.go:68-82 | every character of an encoding by the bytes it stands for |
| Base64.SameBits | internal/identity/identity.go:68-82 | three bytes and their four digits are the same 24-bit number |
| Base64.EncodeLength | internal/identity/identity.go:68-82 | no padding is written |
| Identity.ParseInt64 | internal/identity/identity.go:255-264 | the loop computes the wrapping decimal value, or fails at any non-digit |
| Identity.ParseIs | internal/identity/identity.go:255-264 | exactly digit strings are numbers, and their value is the decimal one, wrapped once to 64 bits |
| Identity.PrintIsCanonical | internal/identity/identity.go:122-133 | printed numbers are digits without a leading zero |
| Identity.PrintParse | internal/identity/identity.go:255-264 | a printed non-negative 64-bit number parses back to itself |
| Identity.IsValidUuid | internal/identity/identity.go:237-253 | accepts exactly 36 characters with dashes at 8, 13, 18 and 23 and hexadecimal digits of either case elsewhere |
| Identity.CookieRoundTrip | internal/identity/identity.go:57-145 | Resolve recovers exactly what SetIdentity wrote until the expiry second, and reports expiry after it |
| Identity.MovedSignatureRejected | internal/identity/identity.go:68-80 | a signature moved to a payload with another hash is rejected |
| Identity.ResolveIsSound | internal/identity/identity.go:63-115 | whatever is accepted as a cookie carries the hash of its payload, names a well-formed participant and has not expired |
| Identity.CsrfRoundTrip | internal/identity/identity.go:159-217 | a token is accepted with a cookie exactly if both name one participant, the cookie has not expired and the token is young enough |
| Identity.CsrfNeedsItsSignature | internal/identity/identity.go:212-216 | a token is accepted only with the very text of the hash of its data |
| Identity.MovedCsrfSignatureRejected | internal/identity/identity.go:212-216 | a signature moved to other data with another hash is rejected |
| Identity.VerifyCsrfIsSound | internal/identity/identity.go:168-217 | whatever token is accepted is signed, names the participant of a live cookie and is not too old |
| Identity.CsrfIsNoCookie | internal/identity/identity.go:64-90 | a CSRF token is never a cookie, nor does its signature make the data it was made for one |
| Identity.CookieIsNoCsrf | internal/identity/identity.go:170-217 | a cookie is never a CSRF token, nor does its signature make the text it was made for one |
| Identity.GeneratedIsValid | internal/identity/identity.go:266-273 | a generated id always passes isValidUUID |
| Identity.GenerateInjective | internal/identity/identity.go:266-273 | different random bytes give different ids |

## Left out

- Uncalled helpers `CreateSubmission`, `StartSubmissionConditional`, `RecoverToQueued` and `CountParticipantQueuedOrRunning` of the database layer: no loop or service uses them.
- HTTP handlers, middleware, templates, Nginx and Compose files, logging, environment parsing, proxy matching, origin comparison, ownership lookup, `sanitizeFilename`: plumbing or easy.
- The Redis v3 queue design and the challenge runtime of the design documents: they do not exist in code.
- Lock queues of PostgreSQL: a waiting transaction waits for the holder of a lock, not for earlier waiters; key-share locks of foreign keys and the participants table are not modelled.
- Blocking reads and entries that were trimmed from the stream while pending: nothing trims the stream.
- `EnsureConsumerGroup`: the group exists from the start of every run, at position "0".
- Text of errors and `last_error`, stored source attributes of a row, `updated_at`: no step reads them.
- Floating-point seconds of the backoff: of the text "%f seconds" only the side on which half a microsecond falls is left open, as the parameter `halfUp`; below 2^20 seconds, which no delay exceeds, everything else is rounded to the nearest microsecond.
- Floating-point numbers of Lua: the script's integers stay below 2^53, where its arithmetic is exact.
- Rates and costs: every caller spends one token, so the script is modelled for cost 1; `AllowIPSubmit` and `AllowPoll` are single calls of the same bucket.
- Worker.ProcessOne: composes its statements undisturbed; `Begin`, `Abandon`, `Conclude` and `Acknowledge` are each stated for whatever other processes have made of the stores by then.
- Loops.RecoveryRound: reads the clock once; a later reading for a row only makes it staler.
- Malformed messages in the loops: `Loops` and `DrainLoops` take a stream of well-formed messages, which is all that Enqueue writes; what a claim does with a malformed one is stated in `StreamQueue` only.
- Identity.ParseInt64: the parser itself is modelled with wrap-around; the round trips are for clocks below 2^63 seconds.
- SHA-256 and HMAC: arbitrary functions; comparing in constant time is not modelled.
- Header and cookie transport by the HTTP library: a token reaches the verifier as it was written.
