# A Dafny model of async-queue-go

`async-queue-go` is a message queue on Redis: producers push messages, consumers claim and commit them, a
forwarder moves delayed and expired ones, and operators cancel, retry and reload. Every state change is one
Lua script; everything else interleaves freely. This project models one channel of that queue and proves what
holds in every interleaving, what holds when consumers are timely, and what each loop computes.

Check it with `dafny verify dfyconfig.toml`.

## How it is built

| file | what it holds |
|---|---|
| `Messages.dfy` | statuses, the stored entity, the consumer's copy, the retry schedule |
| `Lists.dfy`, `SortedSets.dfy` | Redis lists (oldest first: index 0 is the next RPOP) and sorted sets in (score, member) order |
| `Scripts.dfy` | one channel as a value and every script in closed form, without loops |
| `Channels.dfy` | the scripts as they run, in place and with their loops, proved to compute the closed forms |
| `Drivers.dfy` | Push, Pop, Retry and Cancel as the driver runs them |
| `Identity.dfy` | the rolling sequence, the digested text, the key names |
| `Protocol.dfy` | the whole queue as a state machine; a driver call that reads and then runs a script is two steps |
| `Projection.dfy` | what each step means to one message, exactly |
| `Effects.dfy`, `Entities.dfy` | what the looping scripts and every step do to an id and its entity, spelled out field by field |
| `Safety.dfy`, `Guarantees.dfy` | the invariants and the promises over whole runs |
| `Statuses.dfy` | persisted status against position, and against the documented transition table |
| `Exclusivity.dfy`, `Absorption.dfy`, `TimedRelease.dfy` | timely consumers, finished messages, the clock |
| `Recovery.dfy` | which messages routine operation can still bring to a consumer |
| `RetryBudget.dfy` | always-failing messages |
| `Overtaking.dfy` | order over whole runs: how many pops can pass a waiting message |
| `Scenes.dfy`, `RetryExample.dfy`, `DuplicationExample.dfy`, `ReleaseExample.dfy`, `ReloadExample.dfy` | runs built step by step, true to the clock, that attain the bounds and show the failures |
| `Claiming.dfy`, `Forwarding.dfy`, `Reloading.dfy` | the search of Pop, the batches of a hundred, the rounds of Reload |
| `Backoffs.dfy` | int64 backoff, the waits of the consumer's pop loop and of the forwarder |
| `Consumers.dfy`, `ConsumerRun.dfy` | one delivery as it is handled; the concurrent Run loop |

The proof of the run properties goes through one observation: every step of the machine moves each message by
exactly one local move that depends on nothing but that message's own buckets, entity and history
(`Projection.StepProjects`). The invariants are then facts about one message at a time. Run theorems are stated
on the run itself (`Guarantees.Times` counts what happened in its steps), and `HistoryIsWhatHappened` ties the
bookkeeping used in the proofs to it.

## What turned out differently from the documentation

- The guide's transition table (docs/guide.md:515) gives an expired reservation the status `timeout`. No script ever
  stores that status: in every run an id in `timeout` has the documented status if and only if it has no readable
  entity (`TimeoutStatusNeverStored`), and `ExpiredStaysReserved` is a run that gets there with status `reserved`.
- Status and position also part through late commits and through the copies they leave; `StatusLeftExactlyWhen`
  gives the exact steps, in any state.
- Commits carry no reservation token. A Requeue or Fail that arrives after its reservation expired inserts a second
  copy; `CopiesGrowExactly` shows that nothing else does, `BoundedDuplication` counts the copies, and
  `DuplicationIsReached` builds, for every n, a run with n commits after their deadlines and n + 1 copies.
- Delayed forwarding compares with the next second, so a message can leave `delayed` one second early
  (`ReleasedExactlyWhen`); `EarlyReleaseIsReached` does so for every delay.
- `max_attempts` counts retries: an always-failing message that starts with no attempts is delivered limit + 1 times
  (`ExactRetryBudget`), and every state on the way can still get there (`BudgetIsAlwaysReached`).
- Reload gives up after a full round of rejected ids, whatever is behind it (`ReloadDrainsExactlyWhen`);
  `EarlyStopIsReached` is a run that gets there, and repeating the call gets through (`RepeatedReloadsDrain`).
- Cancel of an id that is in none of `delayed`, `reserved` and `waiting` reports "not found" only if Redis hands a
  missing list position to Lua as nil; `CancelScript` takes that as a parameter.
- Backoff overflows int64 for limits of 2^62 nanoseconds and more (`ClosedFormExactlyWhen`).

## Model

| member | source | states |
|---|---|---|
| `Messages.Message.AttemptsAllowed` | pkg/core/message.go:71-78 | counts the attempt either way; allowed exactly while the count stays within the limit |
| `Messages.Message.SetStatus` | pkg/core/message.go:80-90 | new status and stamp, creation time filled in only when missing, nothing else changed |
| `SortedSets.RankedAscending` | pkg/queue/lua.go:43-43 | a sorted set is listed strictly ascending, without repetition |
| `SortedSets.RankedInOrder` | pkg/queue/lua.go:43-43 | of two members the lower score is listed first; at equal scores the proper prefix, or the smaller character at the first difference |
| `SortedSets.DueAfterBatch` | pkg/queue/lua.go:43-49 | after a batch is removed, the next listing continues exactly where the batch ended |
| `SortedSets.FirstDueExactly` | pkg/queue/lua.go:43-43 | an id is in the listed batch if and only if it is due and fewer than 100 ids come before it by score and bytes |
| `Channels.Channel.PushScript` | pkg/queue/lua.go:7-28 | the entity is stored, the id joins the end of waiting or gets its score in delayed, every other bucket stays |
| `Channels.Channel.MoveScript` | pkg/queue/lua.go:35-71 | the loop equals the closed form: due ids leave delayed, readable ones join waiting in order, garbage is deleted, ids without entity leave waiting too; returns the number taken |
| `Channels.Channel.MoveTimeoutScript` | pkg/queue/lua.go:77-99 | the loop equals the closed form; entities untouched; returns the growth of timeout |
| `Channels.Channel.PopScript` | pkg/queue/lua.go:104-136 | the loop terminates and equals the closed-form search; returns the claimed id or none |
| `Channels.Channel.AckScript` | pkg/queue/lua.go:140-164 | reservation removed; a readable entity gets the status done and the stamp, every other field and bucket stays |
| `Channels.Channel.FailScript` | pkg/queue/lua.go:168-194 | reservation removed; a readable entity gets the status failed and the stamp and its id joins the end of failed |
| `Channels.Channel.DropScript` | pkg/queue/lua.go:198-222 | reservation removed; a readable entity gets the status dropped and the stamp, every other field and bucket stays |
| `Channels.Channel.RequeueScript` | pkg/queue/lua.go:226-252 | reservation removed; a readable entity gets the status waiting and the stamp and its id joins the end of waiting |
| `Channels.Channel.RetryScript` | pkg/queue/lua.go:267-317 | both paths; reports exactly whether the id was in one of the five buckets |
| `Channels.Channel.CancelScript` | pkg/queue/lua.go:334-376 | cancels exactly a delayed id; each result code exactly by position and by what a list miss looks like to Lua |
| `Channels.Channel.ReloadScript` | pkg/queue/lua.go:380-420 | a round of at most a hundred equals the closed form in any state, duplicates included; returns the accepted count |
| `Effects.MoveEffect` | pkg/queue/lua.go:43-49 | a round takes out of delayed exactly the due ids among the first 100 and touches neither reserved, timeout nor failed |
| `Effects.MoveEntities` | pkg/queue/lua.go:52-67 | a taken readable entity becomes waiting with the stamp, taken garbage is deleted, no other entity changes |
| `Effects.MoveWaiting` | pkg/queue/lua.go:52-69 | how often each id waits after a round, by what its key held |
| `Effects.MoveOrder` | pkg/queue/lua.go:48-69 | released ids come after everything that waited, by score and then by bytes |
| `Effects.ExpireEffect` | pkg/queue/lua.go:84-98 | a round takes exactly the expired ids among the first 100; those with an entity join timeout; entities and other buckets stay |
| `Effects.ExpireOrder` | pkg/queue/lua.go:90-97 | expired ids come after everything in timeout, by deadline and then by bytes |
| `Effects.ReloadEffect` | pkg/queue/lua.go:387-419 | a round takes the first 100 ids; accepted ones wait as often as they were listed more, the others not at all |
| `Effects.ReloadEntities` | pkg/queue/lua.go:395-415 | exactly the listed readable entities, from timeout only those not done, dropped or canceled, become waiting with the stamp |
| `Effects.ReloadReports` | pkg/queue/lua.go:380-420 | the round reports the number of listed places it put back |
| `Effects.ReloadOrder` | pkg/queue/lua.go:387-419 | reloaded ids come after everything that waited, in the order of the source |
| `Effects.RetryEffect` | pkg/queue/lua.go:267-317 | on the reservation: only it goes; without one: the id leaves the four other buckets; then it joins the end of waiting or gets its score |
| `Effects.RetryMisses` | pkg/queue/lua.go:296-304 | an id in no bucket: nothing changes |
| `Identity.Sequence.Next` | pkg/queue/lua.go:427-446 | one more, or epoch one more and sequence 0 past the limit; both numbers returned as decimal text |
| `Identity.Sequence.GenerateId` | pkg/queue/redis_driver.go:57-88 | rollover after 999999999999; the id is the digest of the text channel, colon, epoch, colon, sequence |
| `Identity.SequenceIncreases` | pkg/queue/lua.go:427-446 | over any number of calls the (epoch, sequence) pairs strictly increase and the sequence stays within range |
| `Identity.SequenceExactly` | pkg/queue/lua.go:427-446 | after n calls on a fresh channel the pair is (n div (max + 1), n mod (max + 1)) |
| `Identity.DecimalReadsBack` | pkg/queue/lua.go:427-446 | numbers are written in decimal digits without leading zeros and can be read back |
| `Identity.PayloadInjective` | pkg/queue/redis_driver.go:85-85 | channel, epoch and sequence can be read back from the digested text, even if channels contain colons |
| `Identity.IdsNeverRepeat` | pkg/queue/redis_driver.go:57-88 | no two calls, in one channel or in two, return the same id unless the digest collides on their two texts |
| `Identity.KeysSeparate` | pkg/queue/keys.go:18-53 | no key is shared between buckets, messages or channels, whatever the channel names |
| `Identity.KeyNames` | pkg/queue/keys.go:18-53 | every key of a channel, as it is written |
| `Drivers.Driver.PushMessage` | pkg/queue/redis_driver.go:91-128 | a nil message is refused; otherwise fresh id, status waiting exactly for delay 0 and else delayed, attempts and limit kept, entity and id stored |
| `Drivers.Driver.PopMessage` | pkg/queue/redis_driver.go:241-285 | the claimed id with its entity as decoded, a limit that is not positive read as 1; a vanished entity gives up the reservation, an unreadable one is an error that keeps it |
| `Drivers.Driver.RetryMessage` | pkg/queue/redis_driver.go:169-211 | all outcomes: empty id, missing entity, unreadable entity; otherwise the entity written has one more attempt if that is within the limit, a limit that is not positive stored as 1, and the status by the sign of the delay |
| `Drivers.Driver.CancelMessage` | pkg/queue/redis_driver.go:139-166 | true exactly when the message was delayed; the empty id, in-execution, ready-for-dispatch and not-found replies each exactly when the code gives them |
| `Drivers.RetryIsTwoSteps` | pkg/queue/redis_driver.go:174-206 | the driver's Retry is the protocol's load step followed by its script step |
| `Projection.StepProjects` | pkg/queue/lua.go:7-420 | every step of the queue moves every message by exactly one local move, named from the step alone |
| `Projection.StepPossible` | pkg/queue/lua.go:35-136 | when a message can be released, expired, claimed, purged or reloaded |
| `Entities.StepWrites` | pkg/queue/lua.go:7-420 | the entity of a readable message after every step, field by field, in any state |
| `Entities.LoadReads` | pkg/core/message.go:54-69 | the consumer's copy: the stored entity with a limit that is not positive read as 1 |
| `Entities.LoadMisses` | pkg/queue/redis_driver.go:276-283 | a vanished entity is noted for removal of the reservation, garbage ends the delivery; the store stays |
| `Entities.RetryReads` | pkg/queue/redis_driver.go:174-197 | the entity a retry is about to write, field by field |
| `Safety.FreshId` | pkg/queue/redis_driver.go:57-88 | the next generated id was never issued before, as long as the digest does not collide on the texts of this run |
| `Safety.StepKeepsInv` | pkg/queue/lua.go:7-446 | every step keeps the whole invariant: ids, work in progress, every message |
| `Guarantees.RunsAreSound` | pkg/queue/lua.go:7-446 | the invariant holds in every state of every run |
| `Guarantees.HistoryIsWhatHappened` | pkg/queue/lua.go:104-376 | the bookkeeping equals the number of pushes, claims, cancellations, late commits and damages in the run |
| `Guarantees.NoSilentLoss` | README.md:30-40 | in every interleaving, late commits included, a pushed message keeps its entity and is in a bucket unless done, dropped or canceled |
| `Guarantees.AtLeastOnce` | README.md:18-40 | a pushed message is queued, was canceled, or was claimed; done and dropped only after a claim, canceled only after a cancellation |
| `Statuses.StatusIsEarned` | pkg/queue/lua.go:140-222 | in every run a message is done only after an Ack of it, dropped only after a Drop, failed only after a Fail, canceled only after a cancellation |
| `Guarantees.BoundedDuplication` | pkg/queue/lua.go:168-252 | occurrences of an id over the five buckets are at most one plus its late Requeue and Fail commits |
| `Guarantees.NoLateInsertsNoDuplicates` | pkg/queue/lua.go:35-420 | without such commits the buckets are disjoint and free of duplicates |
| `Guarantees.CopiesGrowExactly` | pkg/queue/lua.go:7-420 | in every sound state, however many copies there are, a step adds one if and only if it is the push or a late Requeue or Fail, and it adds only one |
| `Guarantees.DuplicatesExactlyByLateInsert` | pkg/queue/lua.go:176-192 | hence a step makes a second copy if and only if it is a late Requeue or Fail for a queued message |
| `DuplicationExample.DuplicationIsReached` | pkg/queue/lua.go:226-252 | the bound is attained: for every n, a run in which every step reads the clock, every commit comes after its deadline, n of them insert late, exactly n + 1 occurrences are left and, for n above 0, the status disagrees with the position |
| `Recovery.ClaimedAgainExactlyWhen` | pkg/queue/lua.go:35-420 | from any state, finitely many forward, reload and pop steps can lead to a claim of a message if and only if it is readable and waiting, delayed or failed, or in timeout or reserved with a status that is not final |
| `Recovery.NeverStuck` | README.md:18-40 | at every point of every run a pushed, undamaged, unfinished message has a finite continuation that delivers it |
| `Guarantees.StatusMatchesPosition` | pkg/queue/lua.go:7-420 | if every commit found a reservation, status equals position, and timeout holds the status reserved |
| `Statuses.TimeoutStatusNeverStored` | docs/guide.md:515-515 | in every run, whatever the digest, no stored entity has the status timeout; an id in timeout is as documented if and only if it has no readable entity |
| `Statuses.DocumentedExactlyOutsideTimeout` | docs/guide.md:501-518 | as long as no commit for it came late, a readable message has the documented status if and only if it is not in timeout |
| `Statuses.StatusLeftExactlyWhen` | pkg/queue/lua.go:104-420 | in every sound state, however many copies there are, a step parts status and position if and only if it is a claim or reload round that leaves copies behind, a retry on a reservation with a copy in timeout, or a commit while a copy is elsewhere, other than a Requeue of a waiting or a Fail of a failed message |
| `Statuses.StatusLeftExactlyByLateCommit` | pkg/queue/lua.go:140-252 | for a message with a single copy, only a late commit of those does it |
| `DuplicationExample.ExpiredStaysReserved` | pkg/queue/lua.go:77-99 | a run, true to the clock, in which an id reaches timeout after its deadline with status reserved |
| `Guarantees.AttemptsStayBounded` | pkg/queue/redis_driver.go:174-206 | under any race of retries, stored attempts stay between the pushed value and the larger of it and the pushed limit, 1 if that is not positive; the stored limit is the pushed one, or that 1 |
| `Exclusivity.CommitsFindTheirReservation` | pkg/queue/redis_driver.go:214-286 | in timely runs every commit acts on the reservation its own claim made |
| `Exclusivity.TimelinessIsExclusivity` | pkg/queue/lua.go:77-136 | in timely runs no message has two copies and no two deliveries within their deadlines share a message; crashes allowed |
| `Absorption.OutOfBucketsStaysOut` | pkg/queue/lua.go:296-304 | a message in no bucket stays out and is never claimed, even if a retry that read it earlier finishes |
| `Absorption.FinishedStaysFinished` | pkg/queue/lua.go:138-222 | after Ack, Drop or a cancellation a message is in no bucket and never delivered again, barring late inserts |
| `Absorption.LateFinishIsSafeForReload` | pkg/queue/lua.go:73-99 | a message acked or dropped after its reservation expired is never redelivered, and the reload round that takes it removes it |
| `TimedRelease.ReleasedWhenDue` | pkg/queue/redis_driver.go:216-223 | a message leaves delayed no earlier than one second before its due second |
| `TimedRelease.ReleasedExactlyWhen` | pkg/queue/redis_driver.go:218-223 | in any state, a round takes a message out of delayed if and only if it is due by the second after the one read and fewer than a hundred ids rank before it |
| `TimedRelease.ReleasedWithinBatch` | pkg/queue/redis_driver.go:218-223 | when all that is due fits in a batch, only the due second decides |
| `ReleaseExample.EarlyReleaseIsReached` | pkg/queue/redis_driver.go:216-223 | for every delay, a run of four steps, true to the clock, that releases the message one second before it is due |
| `TimedRelease.ExpiredExactlyWhen` | pkg/queue/redis_driver.go:228-233 | a round ends a reservation if and only if its deadline is reached and fewer than a hundred ids rank before it |
| `TimedRelease.ExpiredAtDeadline` | pkg/queue/redis_driver.go:228-233 | a reservation expires no earlier than the deadline its claim set |
| `TimedRelease.OnlyForwarderExpires` | pkg/queue/lua.go:77-99 | nothing but the forwarder puts a message into timeout, and only out of reserved |
| `RetryBudget.ExactRetryBudget` | pkg/queue/consumer.go:357-392 | an always-failing message pushed with n retries left (the pushed limit, or 1 if not positive, minus the pushed attempts, or 0) is delivered at most n + 1 times, is waiting, delayed or reserved until then, and is in failed only after exactly n + 1 deliveries and n retries |
| `RetryBudget.FailedIsFinal` | pkg/queue/consumer.go:357-392 | once in failed it rests there, entity untouched, in every later state of the run |
| `RetryBudget.RetriesFollowSchedule` | pkg/core/retry_policy.go:3-15 | stored attempts are the pushed ones plus the retries; the retries take the schedule's entries in turn from the pushed attempts on, then the last one, 10 seconds without a schedule |
| `RetryBudget.LocalAndStoredAgree` | pkg/queue/redis_driver.go:181-197 | the handler's copy and the stored entity agree on the attempts, and the entity about to be written has one more |
| `RetryExample.BudgetIsAlwaysReached` | pkg/queue/consumer.go:357-392 | every state of every failing run after the push has a failing continuation, true to the clock, that ends in failed with exactly one delivery more than the retries allowed |
| `RetryExample.BudgetIsReached` | pkg/queue/consumer.go:357-392 | in particular from the push, for every schedule, limit and number of attempts already made |
| `Claiming.PopIsFifoSearch` | pkg/queue/lua.go:112-135 | Pop claims the oldest readable id, stamps it reserved, keeps the rest in order, deletes exactly the garbage ahead of it, and returns none exactly when none is readable |
| `Overtaking.ClaimedWithinPlaces` | pkg/queue/lua.go:35-420 | over any steps from any state, a readable id with at most p ids ahead is claimed by the (p + 1)-th later pop at the latest, unless its entity is damaged, a retry finds it unreserved or a reload round rejects a copy of it |
| `Forwarding.ForwardMessages` | pkg/queue/redis_driver.go:214-239 | one batch of each kind; the counts are the drop in delayed and the growth of timeout |
| `Forwarding.BatchesAreTransparent` | pkg/queue/lua.go:43-70 | repeated batches at one second terminate and equal one unlimited move, in any state; counts add up |
| `Forwarding.PolledWaiting` | pkg/queue/lua.go:48-69 | the result is the old waiting list followed by the readable due ids as listed |
| `Forwarding.PolledInOrder` | pkg/queue/lua.go:43-69 | in any state, of two readable due ids the lower score waits first; at equal scores the proper prefix, or the smaller character at the first difference |
| `Reloading.Reload` | pkg/queue/redis_driver.go:337-369 | "timeout" reloads timeout and leaves failed, "" and "failed" reload failed and leave timeout, other names are refused; it terminates, consumes the source up to the first round that puts nothing back, extends waiting by the accepted ids, stamps each with the clock of the last round that took it, and returns their number |
| `Reloading.ReloadStops` | pkg/queue/redis_driver.go:353-368 | what a call leaves of the source is nothing, or what follows a full round of rejected ids |
| `Reloading.ReloadDrainsExactlyWhen` | pkg/queue/redis_driver.go:363-366 | a call leaves the source empty if and only if no full round before the last is all rejected |
| `Reloading.RepeatedReloadsDrain` | pkg/queue/redis_driver.go:337-369 | i calls in a row take at least 100 i ids or empty the source, so repeated calls always empty it |
| `Reloading.StaleHeadBlocks` | pkg/queue/redis_driver.go:363-366 | a hundred rejected ids ahead of the rest: the call reports 0 and leaves the rest |
| `ReloadExample.EarlyStopIsReached` | pkg/queue/redis_driver.go:353-368 | for every n above 100, a run, true to the clock, after which any reload of timeout reports 0 and leaves n - 100 ids |
| `Reloading.ReloadAppends` | pkg/queue/lua.go:387-419 | from a duplicate-free state waiting grows by exactly the accepted ids consumed, in order |
| `Backoffs.Backoff.constructor` | pkg/queue/backoff.go:11-23 | initial and limit normalised |
| `Backoffs.Backoff.Advance` | pkg/queue/backoff.go:32-45 | doubling with the clamp below 2^62, a negative wait from there on, the limit after a wait that is not positive |
| `Backoffs.ClosedForm` | pkg/queue/backoff.go:32-45 | after n advances the wait is min(initial * 2^n, limit) for limits below 2^62 |
| `Backoffs.ClosedFormExactlyWhen` | pkg/queue/backoff.go:40-44 | the closed form holds for all n if and only if the limit is below 2^62 |
| `Backoffs.PopLoopWaits` | pkg/queue/consumer.go:165-189 | each retry of a streak waits for the backoff after the earlier failures of that streak, min(initial * 2^failures, limit) for limits below 2^62; any returned pop restarts it |
| `Backoffs.PopStreak` | pkg/queue/consumer.go:165-189 | the failures that count are the latest unbroken streak |
| `Backoffs.Forwarder.NormalizeIntervals` | pkg/queue/forwarder.go:92-105 | defaults for non-positive intervals, limit at least the first backoff |
| `Backoffs.Forwarder.Run` | pkg/queue/forwarder.go:47-90 | the timer after every round: after an error the backoff of the streak, min(initial * 2^failures, limit) for limits below 2^62; busy or idle interval after a success |
| `Backoffs.ForwardStreak` | pkg/queue/forwarder.go:47-90 | the same for the forwarder's rounds |
| `Consumers.Consumer.HandleError` | pkg/queue/consumer.go:357-392 | below the limit exactly one Retry call with the scheduled delay, otherwise exactly one Fail call; the matching counter and status only if it went through |
| `Consumers.Consumer.HandleOne` | pkg/queue/consumer.go:246-354 | the one commit call, the counter, the status and the reported error for each way the handler can end: requeue, drop, ack and unknown results, retry, error and panic |
| `Consumers.Consumer.Handle` | pkg/queue/consumer.go:199-208 | every delivery adds one to exactly one counter; to errors exactly if its call failed outside a panic |
| `ConsumerRun.RunsKeepInv` | pkg/queue/consumer.go:145-213 | semaphore, wait group, counters and commit calls are consistent in every state of every run |
| `ConsumerRun.ConcurrencyBounded` | pkg/queue/consumer.go:146-209 | handlers never exceed the limit, claimed messages without a commit never exceed it by more than one, claims never exceed the message cap |
| `ConsumerRun.OneRightCommit` | pkg/queue/consumer.go:246-392 | at any time a claimed message has had no commit call while its handler runs, and afterwards exactly the one its ending calls for, ending by ending |
| `ConsumerRun.DrainedAndAccounted` | pkg/queue/consumer.go:155-212 | on every exit nothing is in flight, every claimed message had its one commit, and each counter is the number of deliveries of its kind by call, answer and ending; they add up to processed |
| `ConsumerRun.StopsForAReason` | pkg/queue/consumer.go:151-196 | Run leaves its loop only by a cancellation, a fatal pop error, or after claiming exactly the message cap |
| `ConsumerRun.GoesOn` | pkg/queue/consumer.go:151-154 | while it loops it may claim exactly if no cap applies or the cap is not reached |

## Assumptions

- The digest is a parameter. Run theorems require that it does not collide on the finitely many texts which that
  run digests (`Protocol.CollisionFree`), nothing about other texts; the example runs and `TimeoutStatusNeverStored`
  require nothing of it.
- Lua prints sequence and epoch in plain decimal, which is so below 10^14.
- Handlers do not edit the attempt counts of their message, and hooks return normally.
- Timed theorems assume one clock that never runs backwards and is read before a script runs.
- `Reloading.Reload` and `Forwarding.BatchesAreTransparent` describe calls that nothing interferes with; the
  protocol interleaves their single rounds with everything else.

## Left out

- Backoffs.PopLoopWaits: describes the waits only; claims and commits of the same loop are in ConsumerRun.
- Expiry times: TTLs are not modelled; the entity of a message may expire, be deleted or be overwritten at any step (`Protocol.Damage`), and the loss theorems speak of messages to which that did not happen.
- Flush and Info: removal of a whole bucket is outside the loss promise; Info only reads lengths.
- JSON: entities are records; byte-level fidelity of payloads through decoding and encoding is not modelled.
- Redis transport, script loading, connection errors and reply conversion: a failed call is a step that did not happen, or a delivery that is abandoned.
- Pop's polling timer, and the conversion of handle timeouts to a deadline second: the deadline is a parameter of the claim.
- Panicking hooks: a hook that panics after the commit would cause a second commit.
- The classification of retryable pop errors: any error may be retryable or fatal.
- Worker, manager, server, mux and options: they wire the parts together and hold defaults.
