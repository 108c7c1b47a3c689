# Ingress gateway: job lifecycle and rate limiting, verified

The gateway accepts registrations, payment webhooks, QR scans and notifications over HTTP, turns each into a job, and
lets a pool of workers take the jobs off three Redis lists in priority order. Jobs are retried with backoff, moved to
a dead-letter list when they fail for good, guarded against duplicate delivery by a lock and a done marker in Redis,
and accounted for in a Postgres table. Requests are limited by token buckets and shed when the queue is deep.

This project models that behaviour in Dafny and proves what holds of it in every run. Redis is lists plus a key/value
map with expiry, Postgres a map from id to row, time a non-decreasing number. Each Redis or Postgres call is one step
of a transition system, so that steps of different goroutines interleave in every way; each step that may fail carries
a flag saying whether it did. Where the code keeps a promise only under a condition, the condition is proved to be
necessary as well: the theorem is an "if and only if", with a concrete run on the failing side.

Check everything with `dafny verify dfyconfig.toml`.

## How the files fit together

- `Domain`, `Sums`, `Adapters`: the job envelope, weighted sums, the cache and the job table.
- `PriorityQueue`, `ServiceOrder`, `RedisKeys`: the queue adapter, the order in which jobs are served, the key space.
- `PoolProtocol`: the whole lifecycle as one transition system. `PoolLedger` weighs every place a copy can be;
  conservation, uniqueness, no loss and termination are all instances with different weights (`PoolSafety`,
  `PoolNoLoss`, `PoolTermination`). `PoolShutdown`, `PoolCompletion`, `PoolLifecycle` and `PoolTraces` build on them.
- `PoolCode`, `PoolLoops`: `process`, `toDeadLetter`, `backoff`, `dispatch` and `requeueAfter` in imperative form, what
  they do stated on the fields, and that as runs of the protocol. `PoolEntry` does the same for the services' ends and
  `GuardCode` for the duplicate guard.
- `DuplicateGuard`, `Idempotency`, `QrDedup`, `Backpressure`: protocols with clocks and expiring keys, or with
  concurrent requests, each with its exact condition. `Services`, `QrScanCode` and `RegistrationCode` are the
  corresponding code in imperative form.
- `TokenBucket`, `KeyedLimiter`: the bucket and the evicting map of buckets. Time is measured in tokens (seconds times
  the refill rate), so that the arithmetic is linear.

## Where the code is weaker than its comments

- "So it is not lost", "so the job is never lost" (internal/worker/pool.go:154, internal/worker/pool.go:268): true in
  all runs of a kind exactly when that kind excludes six failures (the lock claim, the lock delete, the dead-letter
  push, the dispatcher's put-back, a retry's second push, a retry's push after cancellation), admin retries of a job
  whose done marker is set or that its worker has not let go yet, and, with more than one worker, retry timers that beat
  the deferred lock delete (`NeverLosesIff`, with one run for each in `PoolTraces`). Failing table updates, marker reads
  and writes, first pushes and enqueues never lose a job.
- "Ensures a job is processed once even if it appears twice on the queue" (README.md of the repository, line 141): true
  exactly when no guarded run overstays the lock, the marker is written and read reliably and the two guard commands are
  atomic; the code issues them separately and takes a failed read for "not done" (`NeverLateIff`, `SplitGuardsAreLate`,
  `BlindCheckIsLate`).
- Releasing the idempotency key on failure (internal/service/gateway_service.go:94) deletes another call's claim exactly
  when a call can outlive its own (`IdempotentIff`).
- A failed QR row write followed by a retry inside the window is reported as a successful duplicate
  (`FailedWriteIsForgotten`, `SuppressionsIff`); so is one after a claim whose reply was lost
  (`UnheardClaimIsForgotten`).
- "deterministic -> no dup" (internal/worker/registration_processor.go:85): the key contains a registration id that is
  new on every attempt. What prevents a second notification is that nothing can fail after the fan-out.

## Model

| member | source | states |
|---|---|---|
| `PoolSafety.CopiesConserved` | internal/worker/pool.go:130-303 | in every run, with any failures, early timers and admin retries, each accepted copy of a job is in exactly one of list, dispatcher, channel, worker, timer, success or dead-letter, or was given up on explicitly |
| `PoolSafety.OneLiveCopyOneSuccess` | internal/worker/pool.go:203-264 | in every run a job id has at most one live copy, a live copy means its row is QUEUED or PROCESSING even when ignored updates fail, and no id succeeds twice or is retried after success |
| `PoolSafety.WinsAreWon` | internal/worker/pool.go:221-237 | the success count used above is the number of logged successful runs of that id |
| `PoolLedger.StepWeighs` | internal/worker/pool.go:94-303 | for every assignment of weights to places, what each step of the whole system adds to and takes from the total |
| `PoolNoLoss.NoAcceptedJobIsLost` | internal/worker/pool.go:130-303 | in every run without the six costly failures, hasty admin retries and (with two or more workers) early timers, nothing is ever skipped or given up on and each accepted copy is in exactly one place, although table updates, marker reads and writes, first pushes and enqueues may fail at any time and dead letters may be retried |
| `PoolNoLoss.AcceptedOncePerRetry` | internal/service/gateway_service.go:67-100 | in every run a job is accepted at most once, plus once for every admin retry of it |
| `PoolNoLoss.CalmRunsStayCalm` | internal/worker/pool.go:191-201 | the invariant behind it: locks are held by the worker that has the job, a marked or settled job has no live copy, and while a lock delete is pending the job's live copy, if any, waits for its timer |
| `PoolTraces.NeverLosesIff` | internal/worker/pool.go:130-303 | nothing is lost in all runs of a kind if and only if the kind excludes each of the six failures, both kinds of hasty admin retry and (with two or more workers) early timers; all other calls may fail |
| `PoolTraces.LockErrorDropsJob` | internal/worker/pool.go:196-200 | a run in which a SetNX error is taken for a foreign lock and drops an accepted job |
| `PoolTraces.EarlyTimerMeetsOwnLock` | internal/worker/pool.go:263-283 | a run in which a retry fires before the deferred lock delete, meets its own lock and is dropped |
| `PoolTraces.RetriedJobMeetsDoneMarker` | internal/service/admin_service.go:75-98 | a run in which a dead letter is retried while its done marker lives, and the copy is dropped |
| `PoolTraces.OverlappingRetryMeetsMarker` | internal/worker/pool.go:287-299 | a run in which a dead letter is retried after its row is updated and before its marker is set, and the copy meets the marker |
| `PoolTraces.PatientRetrySucceeds` | internal/service/admin_service.go:75-98 | a calm run in which the marker of a dead letter expires, the job is retried and its second life succeeds |
| `PoolTraces.UnlockErrorDropsRetry` | internal/worker/pool.go:201 | a run in which a failed lock delete stops the retry |
| `PoolTraces.BuryErrorDropsJob` | internal/worker/pool.go:295-297 | a run in which a failed dead-letter push loses the job |
| `PoolTraces.PutBackErrorDropsJob` | internal/worker/pool.go:153-156 | a run in which the dispatcher's put-back fails and loses the job |
| `PoolTraces.RequeueErrorDropsRetry` | internal/worker/pool.go:276-279 | a run in which both pushes of a retry fail and lose the job |
| `PoolTraces.CancelErrorDropsRetry` | internal/worker/pool.go:280-282 | a run in which the one push of a cancelled retry fails and loses the job |
| `PoolShutdown.NoLateSendCloseOrRetry` | internal/worker/pool.go:106-167 | in every run nothing is sent on the closed channel, it is closed once, and no retry goroutine is added once Shutdown waits for them |
| `PoolShutdown.DrainedIsQuiescent` | internal/worker/pool.go:106-125 | when Shutdown reports a clean drain the context was cancelled, the channel is closed and empty, all workers have returned and no timer is pending |
| `PoolShutdown.DrainLeavesWorkInRedis` | internal/worker/pool.go:106-159 | after a clean drain every accepted copy is on a Redis list, ended or given up on; after a calm run none is given up on |
| `PoolTermination.FinitelyManyBusySteps` | internal/worker/pool.go:246-264 | from any state, a run without new outside work has at most Measure(s) non-idle steps, whatever processors return and calls fail |
| `PoolTermination.StepCosts` | internal/worker/registration_processor.go:56-90 | no step of the pool raises the measure and every non-idle one lowers it, including a registration that creates a whole new notification job |
| `PoolCompletion.AtRestIsEmpty` | internal/worker/pool.go:130-167 | a pool with workers and nothing left to do holds no job anywhere: no deadlock |
| `PoolCompletion.EveryAcceptedJobEnds` | internal/worker/pool.go:130-303 | whenever the running pool comes to rest, accepted = succeeded + dead-lettered + given up, and after a calm run none is given up on |
| `PoolCompletion.CancelledPoolDrains` | internal/worker/pool.go:104-125 | a cancelled pool comes to rest nowhere but at a clean drain, whatever fails; with FinitelyManyBusySteps, Shutdown cannot hang |
| `PoolLifecycle.AttemptsFollowTheRule` | internal/worker/pool.go:211-264 | in every run and for every outcome sequence, for every copy in a list, the dispatcher's hand, the channel, a worker, a timer, SUCCESS or the dead-letter list: attempts are numbered 1..k, RetryCount never passes MaxRetries, and attempts stop exactly at the first success, the first non-retryable error or attempt MaxRetries + 1 |
| `PoolCode.Pool.Process` | internal/worker/pool.go:171-265 | on the fields, for every answer of its calls: who is skipped; what the row reads after which writes; that a success sets the marker and the row SUCCESS, a burial the marker, the row DEAD_LETTER and the dead-letter head, a retry one timer and the row QUEUED with one more retry; that the lock is released |
| `PoolCode.SecondDeliveryIsNoOp` | internal/worker/pool.go:191-195 | after a marked success, a further delivery of any copy of that job changes no row, list, marker, lock or timer while the marker is there and can be read |
| `PoolCode.DeliveryIsWalk` | internal/worker/pool.go:171-265 | every delivery is a path of the protocol's actions, from the receipt of the copy to the idle worker, with the same effect on the fields |
| `GuardCode.DeliveryIsGuardRun` | internal/worker/pool.go:191-237 | every delivery of a registered job is a piece of a run of the duplicate guard with the same locks and markers; it is a late start exactly when the job had succeeded and its marker should live, and a marked success is settled |
| `PoolCode.Pool.RunProcessor` | internal/worker/registration_processor.go:56-90 | a successful registration stores its notification's row and, if the push succeeds, puts it at the head of the low list; nothing else changes |
| `PoolCode.Pool.RunGuarded` | internal/worker/pool.go:203-265 | what the part under the lock leaves in the row, the markers, the lists and the timers, for every outcome and retry budget |
| `PoolCode.Pool.Succeed` | internal/worker/pool.go:221-237 | the row reads SUCCESS and the marker is set, each when its call succeeds |
| `PoolCode.Pool.Reschedule` | internal/worker/pool.go:252-264 | the row reads QUEUED with one more retry, and one timer holds that copy |
| `PoolCode.Pool.ToDeadLetter` | internal/worker/pool.go:287-303 | the terminal status is stored, the copy is at the head of the dead-letter list and the marker is set, each when its call succeeds |
| `PoolCode.Pool.Backoff` | internal/worker/pool.go:308-318 | defaults are filled in; the delay lies between 0 and the cap of the attempt, and every such delay can occur, from 0 to the base on the first attempt and to twice the base on the second |
| `PoolCode.BackoffDoubles` | internal/worker/pool.go:315-316 | the first cap is the base, or the maximum if smaller; caps double with each attempt until they reach the maximum, and never decrease |
| `PoolCode.BackoffGrows` | internal/worker/pool.go:315-316 | the k-th cap is the base doubled k - 1 times while that is within the maximum, and the maximum from then on |
| `PoolCode.AnswersDecide` | internal/worker/pool.go:171-303 | given the answers to its calls, process has exactly one path and one result |
| `PoolCode.PathIsRun` | internal/worker/pool.go:162-167 | such a path is a legal run of the whole system in which only that worker moves |
| `PoolLoops.Loops.Dispatch` | internal/worker/pool.go:130-159 | the loop sends queued copies to the channel in stable priority order, one per turn that yields one, until a turn ends it; the channel stays within its bound and is closed exactly on return; a copy is lost only by a failed put-back |
| `PoolLoops.Loops.TakeTurn` | internal/worker/pool.go:134-158 | what one turn does with the lists, the channel and the context, and when it ends the loop |
| `PoolLoops.DispatchIsRun` | internal/worker/pool.go:130-159 | what the loop does is a run of the protocol, with cancellation exactly if the loop ends |
| `PoolLoops.Loops.RequeueAfter` | internal/worker/pool.go:269-283 | a retry goroutine puts its copy back unless every push it tries fails, and removes exactly its own timer |
| `PoolLoops.RequeueIsRun` | internal/worker/pool.go:269-283 | what it does is a run of the protocol |
| `DuplicateGuard.OneInsideIff` | internal/worker/pool.go:196-211 | with arbitrary duplicate deliveries, at most one worker is inside Process per id in every run, although the lock is deleted without an owner check, if and only if every guarded run ends within lockTTL |
| `DuplicateGuard.NeverLateIff` | internal/worker/pool.go:191-237 | Process never starts for an id that has succeeded while its marker should live, in every run, if and only if guards are atomic, the marker is written and read reliably and no guarded run overstays |
| `DuplicateGuard.BlindCheckIsLate` | internal/worker/pool.go:192-195 | the run that uses a failed marker read, which reads as "not done" |
| `DuplicateGuard.SplitGuardsAreLate` | internal/worker/pool.go:192-196 | the run that uses the gap between the two guard commands |
| `DuplicateGuard.LostMarkerIsLate` | internal/worker/pool.go:229 | the run that uses a failed marker write |
| `DuplicateGuard.OverstayingIsLate` | internal/worker/pool.go:196-229 | the run that uses an expired lock |
| `Idempotency.IdempotentIff` | internal/service/gateway_service.go:69-100 | over all interleavings and failures: failing calls delete only their own claims, and successful pushes for one key rest on claims a TTL apart, if and only if every call ends before its claim expires |
| `Idempotency.SlowCallSteals` | internal/service/gateway_service.go:93-99 | the run in which a slow failing call deletes its successor's claim |
| `Idempotency.ThirdCallSlipsIn` | internal/service/gateway_service.go:93-99 | and a third call then pushes the same key at the same time |
| `Services.GatewayService.constructor` | internal/service/gateway_service.go:36-44 | the defaults for the retry budget and the TTL |
| `Services.GatewayService.Enqueue` | internal/service/gateway_service.go:49-108 | which answer each request gets, if and only if; exactly what each answer leaves in cache, table and queue; that an accepted job carries the request's type and payload with a full budget; and that it heads the high list for payments and scans, the medium one for registrations, the low one for notifications |
| `Services.ClientKeysDecide` | internal/service/gateway_service.go:57-61 | requests with client keys claim the same key if and only if type and client key agree, whatever the payloads |
| `Services.PayloadsDecide` | internal/service/idempotency.go:15-26 | without client keys, and with a collision-free hash, if and only if type and payload agree |
| `Services.SecondIsDuplicate` | internal/service/gateway_service.go:69-89 | after an accepted request, one with its type and client key inside the TTL is a duplicate that changes nothing and names the first job |
| `Services.OtherKeyIsAccepted` | internal/service/gateway_service.go:69-107 | one with another type or client key is accepted, even with the same payload |
| `PoolEntry.EnqueueEntersPool` | internal/service/gateway_service.go:91-107 | every Enqueue call is a run of the pool's protocol that accepts exactly the accepted job |
| `PoolEntry.RetryEntersPool` | internal/service/admin_service.go:75-98 | so is every RetryJob call, with a fresh copy of the reset job |
| `ServiceOrder.ServedByType` | internal/domain/job.go:57-68 | accepted jobs are served as all payment webhooks and QR scans in order, then all registrations, then all notifications |
| `ServiceOrder.UrgentOvertakes` | internal/domain/job.go:57-68 | a payment or scan accepted after any number of registrations and notifications is popped first |
| `Services.EnqueueIsRun` | internal/service/gateway_service.go:69-100 | every such call is a piece of a run of the idempotency protocol, beside any calls in progress, and its push is recorded exactly when the job was accepted |
| `Services.GatewayService.EnqueueAs` | internal/service/gateway_service.go:69-108 | the same for a request that passed validation, under its rendered key |
| `Services.GatewayService.Submit` | internal/service/gateway_service.go:91-107 | create and push, or release the claim |
| `Services.GatewayService.Existing` | internal/service/gateway_service.go:75-89 | a duplicate is answered with the stored job of the id that holds the key, or a stub naming it |
| `Services.AdminService.RetryJob` | internal/service/admin_service.go:75-98 | exactly FAILED and DEAD_LETTER jobs are re-queued, with a fresh budget and an unchanged identity; every error leaves the queue alone |
| `RegistrationCode.RegistrationProcessor.Process` | internal/worker/registration_processor.go:34-90 | the outcome does not depend on the fan-out; a success stores one registration and makes one Enqueue call, for at most one low-priority notification, and exactly one if the calls succeed, the id is new and the key is free; no other outcome stores or enqueues anything |
| `RegistrationCode.WelcomeKeysDiffer` | internal/worker/registration_processor.go:85 | notification keys agree if and only if the registration ids do |
| `RegistrationCode.OthersDoNotBlock` | internal/worker/registration_processor.go:82-90 | a cache whose notification keys all come from other registrations never holds this one's key |
| `QrDedup.StoredRowsApart` | internal/worker/qrscan_processor.go:50-72 | in every run, whatever fails, stored rows of one dedup key come from claims at least dedupTTL apart |
| `QrDedup.AttendanceIff` | internal/worker/qrscan_processor.go:70-81 | counter + scans about to count + failed increments + writes whose reply was lost = stored rows, so counter and rows agree if and only if neither has happened for the event |
| `QrDedup.SuppressionsIff` | internal/worker/qrscan_processor.go:50-72 | every suppressed scan has a stored or in-progress claimant in its window, in every run, if and only if row writes never fail and no claim's reply is lost |
| `QrDedup.FailedWriteIsForgotten` | internal/worker/qrscan_processor.go:51-72 | the run in which a failed write and its retry leave no row at all |
| `QrDedup.UnheardClaimIsForgotten` | internal/worker/qrscan_processor.go:51-58 | the run in which a claim's lost reply and the retry leave no row at all |
| `QrScanCode.QRScanProcessor.constructor` | internal/worker/qrscan_processor.go:27-32 | the default dedup window |
| `QrScanCode.QRScanProcessor.Process` | internal/worker/qrscan_processor.go:38-90 | outcome, dedup key, rows and counter for every payload and every answer of cache and table |
| `QrScanCode.ScanIsRun` | internal/worker/qrscan_processor.go:50-81 | every such scan is a piece of a run of the dedup protocol, beside any scans in progress, and keeps the protocol state in step with cache and table |
| `QrScanCode.SameScanIsSuppressed` | internal/worker/qrscan_processor.go:47-58 | a second scan of the same event and code inside the window is a successful no-op |
| `QrScanCode.OtherScanIsStored` | internal/worker/qrscan_processor.go:50-81 | a scan that differs in event or code, with event ids free of colons, is stored and counted for its own event only |
| `Backpressure.DepthBoundIff` | internal/api/middleware/backpressure.go:19-35 | with W requests in flight and depth reads that other commands may tear, depth never exceeds b plus the extra pushes, in every run, if and only if the threshold T is positive, no check fails and T - 1 + W <= b |
| `Backpressure.DepthBounded` | internal/api/middleware/backpressure.go:19-35 | the upper half: depth <= T - 1 + W + extra pushes in every run |
| `Backpressure.PushTogether` | internal/service/gateway_service.go:97 | the bound is attained: W requests look before any of them pushes |
| `Backpressure.Check` | internal/api/middleware/backpressure.go:19-35 | a request is shed exactly when the threshold is positive, the check succeeds and the depth has reached it |
| `PriorityQueue.PopsArePrefixOfPushes` | internal/queue/redis_queue.go:27-90 | over every interleaving, what was popped of a priority is a prefix of what was pushed to it, and depth is pushes minus pops |
| `PriorityQueue.PopRespectsPriority` | internal/queue/redis_queue.go:66-90 | a pop takes the oldest item of its level, after every more urgent push has been popped |
| `PriorityQueue.DrainIsStableSort` | internal/queue/redis_queue.go:27-90 | a sequence is what draining yields if and only if it is the stable sort of the pushes by priority |
| `PriorityQueue.RedisQueue.Push` | internal/queue/redis_queue.go:46-64 | HIGH goes to the head of the high list, LOW of the low one, all else of the medium one; nothing changes on an error |
| `PriorityQueue.RedisQueue.Pop` | internal/queue/redis_queue.go:68-89 | the tail of the first non-empty list in scan order; timeouts and cancellation read as no job |
| `PriorityQueue.RedisQueue.PushDeadLetter` | internal/queue/redis_queue.go:92-98 | the job is at the head of the dead-letter list |
| `PriorityQueue.RedisQueue.TotalDepth` | internal/queue/redis_queue.go:107-121 | the sum over the ordered keys is the number of queued jobs |
| `PriorityQueue.RedisQueue.ListDeadLetter` | internal/queue/redis_queue.go:129-146 | the most recent dead letters, at most limit, 50 by default |
| `RedisKeys.IdempotencyInjective` | internal/service/idempotency.go:24-26 | idempotency keys agree if and only if valid type and client key agree, for arbitrary strings |
| `RedisKeys.FamiliesDisjoint` | internal/worker/pool.go:192-196 | idempotency, lock, done, QR, attendance and list keys never collide across families |
| `RedisKeys.CollisionsAreQrOnly` | internal/worker/qrscan_processor.go:50-76 | the complete list of collisions: only QR keys whose event ids continue past one another with a colon |
| `RedisKeys.EventsConfusedIff` | internal/worker/qrscan_processor.go:43-50 | two events can be confused for some non-empty codes if and only if one id extends the other past a colon |
| `TokenBucket.WindowBound` | internal/ratelimiter/token_bucket.go:24-56 | in every window of every run of a new bucket at most burst + rps * length requests pass, and it holds between 0 and burst tokens, a non-positive burst or rps counting as one |
| `TokenBucket.BurstPasses` | internal/ratelimiter/token_bucket.go:24-56 | of any number of requests at the starting time exactly the first burst ones pass |
| `TokenBucket.SteadyClientPasses` | internal/ratelimiter/token_bucket.go:40-56 | a client that leaves at least 1 / rps seconds between its requests is never refused |
| `TokenBucket.GreedyOptimal` | internal/ratelimiter/token_bucket.go:40-56 | at every prefix of every arrival sequence no policy under the same capacity and refill has admitted more |
| `TokenBucket.ObservationsErase` | internal/ratelimiter/token_bucket.go:59-67 | erasing all Tokens reads from a run changes no Allow decision |
| `TokenBucket.SpendBound` | internal/ratelimiter/token_bucket.go:40-56 | tokens spent plus tokens left never exceed tokens owned plus tokens refilled |
| `TokenBucket.Bucket.constructor` | internal/ratelimiter/token_bucket.go:24-37 | capacity and tokens are the burst and the rate is rps, each 1 if not positive |
| `TokenBucket.Bucket.Allow` | internal/ratelimiter/token_bucket.go:40-56 | the fields after the call, in seconds; and that this is the specification's lazy refill and spend |
| `TokenBucket.Bucket.Tokens` | internal/ratelimiter/token_bucket.go:59-67 | the observation is a refill without a spend |
| `KeyedLimiter.EvictionInvisibleIff` | internal/ratelimiter/limiter.go:63-96 | over every interleaving of look-ups, decisions and janitor sweeps, each key is answered as by one immortal, initially full bucket of its own, if and only if (idleTTL - lag) * rps >= burst with clamped rps and burst, lag being the longest time between a look-up and its decision |
| `KeyedLimiter.TwoBursts` | internal/ratelimiter/limiter.go:78-96 | otherwise a run in which one key spends two full bursts within less than a refill |
| `KeyedLimiter.Limiter.constructor` | internal/ratelimiter/limiter.go:47-60 | an empty map, the given rate and burst, and the default idle time of ten minutes |
| `KeyedLimiter.Limiter.Allow` | internal/ratelimiter/limiter.go:63-75 | one look-up that stamps the key and one decision of its bucket; no other key's bucket changes |
| `KeyedLimiter.Limiter.Lookup` | internal/ratelimiter/limiter.go:64-74 | the tracked bucket, or a new full one with the limiter's burst and rate |
| `KeyedLimiter.Limiter.Sweep` | internal/ratelimiter/limiter.go:85-93 | exactly the keys not seen within idleTTL are dropped |
| `TokenBucket.GlobalLimiter.Allow` | internal/ratelimiter/limiter.go:19-24 | one shared bucket answers every key |
| `Adapters.RedisCache.SetNX` | internal/cache/redis_cache.go:46-48 | set only if no live value is there; a lost reply is an error that may have taken effect |
| `Adapters.JobStore.Create` | internal/repository/job_repository.go:14-29 | inserts a row under a new id |
| `Adapters.JobStore.Update` | internal/repository/job_repository.go:32-47 | only mutable columns of an existing row change; a missing id is an error |

## Left out

- HTTP handlers, router, health endpoints, logging, metrics, Swagger, configuration, migrations and deployment files: plumbing.
- JWT and HMAC verification: thin wrappers over libraries.
- JSON encoding and SQL text: payloads are opaque strings, a request says whether its body is valid JSON, rows are values.
- SHA-256 and UUID generation: the hash is an arbitrary function, fresh ids are preconditions.
- Float rounding in the bucket and in backoff: reals and integers; random jitter is an arbitrary value in its range.
- Payment and notification processors: only their outcome (success, retryable, non-retryable) matters to the pool.
- Error messages, timestamps, trace ids, attempt records and audit rows: written and never read by the code modelled here.
- `AdminService.Stats`, job listing and paging: sums and filters without state.
- In the pool protocol and the duplicate guard a failed call has no effect; calls that take effect and report an error are modelled for the idempotency claim, the QR claim and the QR row write only.
- A BRPOP interrupted after Redis removed the element, and a process crash: both lose the job in hand, and the code has no recovery for either.
- PoolSafety.OneLiveCopyOneSuccess: takes RetryJob's read, update and push as one step; two admins retrying one job at the same instant are not modelled.
- PoolCode.Pool.Process: the processor's outcome and the notification it fans out are given; what they depend on is `RegistrationCode` and `QrScanCode`. The lifetimes of lock and marker are `DuplicateGuard`'s.
- PoolLoops.Loops.Dispatch: shown with the other goroutines at rest, over a finite list of turns; their interleaving is the protocol's, where `worker`, `Start` and `Shutdown` are steps rather than imperative code.
- PoolLoops.DispatchIsRun: the same.
- Services.EnqueueIsRun: the call is uninterrupted (the interleaving of calls is the protocol's), and the cache holds idempotency keys only; `RedisKeys.FamiliesDisjoint` is why the other families do not matter.
