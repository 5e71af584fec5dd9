# A verified model of the batch engine

The batch engine runs one job in one process: ingest streams rows into a bounded queue, N workers
pace, call, classify and retry, and a single writer appends one outcome row per item. This project
models that engine in Dafny and proves what its design promises of it, over every run: every
interleaving of the workers, every answer of the upstream, every reading of the clock.

## Layout

| file | what it is about |
|---|---|
| `Models.dfy` | shared value types, and products of reals as a black box for proofs |
| `Retry.dfy` | classification table, back-off envelope, retry budget, circuit breaker |
| `RateLimit.dfy` | token bucket, AIMD controller, their bounds over all runs |
| `Quota.dfy` | the upstream's sliding-window quota, kept as a pruned deque |
| `Pacing.dfy` | the bucket in front of the quota: exactly when no call is refused |
| `Job.dfy` | one job as a step machine; a step is the code between two suspension points |
| `JobLedger.dfy`, `JobCustody.dfy`, `JobAttempts.dfy` | the invariants: counters; where every item is, sentinels, books; attempt traces and who owns a half-open breaker |
| `JobRuns.dfy`, `JobStopping.dfy` | the safety theorems about whole jobs; how an abort or a cancel takes hold |
| `JobTermination.dfy` | the measure that ends every job |
| `JobPacing.dfy`, `JobRate.dfy`, `JobSpend.dfy`, `JobOutcomes.dfy` | pacing and quota, the controller's rate, spending, and what each result row means, for whole jobs |
| `JobLaws.dfy`, `JobBreaker.dfy` | what each turn of a worker leads to, by the replies it gets; exactly when a job's breaker opens |
| `JobDriver.dfy` | building runs of a job, for results about what a job can do |
| `JobOverspend.dfy`, `JobRefusal.dfy`, `JobLateAnswer.dfy` | runs that spend past the cap, that the quota refuses, and in which a late answer ends a probe |
| `Scheduler.dfy` | the job record and worker context as an object updated in place, refining `Job` |
| `Bridge.dfy` | the parser thread and the async generator of `stream_items` |
| `ResultLog.dfy`, `TornLog.dfy` | the JSONL result file, `replay`, and crashes at any character |
| `Sink.dfy`, `ResultFile.dfy` | the writer's batching and durability; the file of a whole job |
| `LossWindow.dfy` | the counted rows of a job that a crash can take |

Objects that the program updates in place are classes here (`RetryBudget`, `CircuitBreaker`,
`TokenBucket`, `AdaptiveController`, `MockProvider`, `JobRunner`, `StreamItems`, `ResultSink`), and
each of their methods is proved to change the fields as a function of the old fields says. The
theorems are then about runs of those functions. `JobRunner` calls the other four components, so a
theorem about the step machine in `Job` is a theorem about the objects.

## Preconditions

- One monotone clock; every step carries its reading.
- A provider call ends in a response or in an exception that is not a cancellation.
- The breaker's window is at least 1 and its times are not negative (`ValidBreakerConfig`); the bucket
  starts with a positive rate and a capacity of at least 1 (`ValidBucket`); at least one worker.
- Bounds that speak of the controller's range need that range to be in order (`ValidController`).
  `WiringInRange` shows that a job's own wiring is in order exactly from 3 requests a minute on.
- The price of an answer is not negative and the cap is positive, for the spending bound only.

## Where the code and its documentation differ

The model follows the code.

- The breaker is said to look at the last 100 outcomes (`docs/design.md:346`). It can open from 10 on:
  `Trips` needs `min(window, 10)`.
- Half-open is said to admit exactly one probe (`docs/design.md:347`). That holds until the probe goes
  stale; after that every request is admitted until an answer comes. `ProbeAdmission` gives the exact
  condition, and `SecondProbeExample` two admitted requests.
- What ends a half-open epoch is the next answer to any call (`HalfOpenEndsOnAnswer`), be it to a call
  sent before the breaker opened, by a worker that is not probing (`LateAnswerCloses`).
- The per-job cap is said to be hard (`docs/design.md:45`) and a breach to abort the job
  (`docs/design.md:401-403`). The guard looks only after a success, and then only if the number of done
  rows is a multiple of 50. `AbortedExactly` says when a job is aborted. A job whose every 50th row is
  an error row, and none of whose rows is fatal, is never stopped (`GuardBlindSpot`), and such jobs
  spend without limit under any cap (`SpendingIsUnbounded`). Where no item fails, the cost stays below
  the cap plus the price of 49 + concurrency answers (`SpendOvershoot`) and comes as near to that as one
  likes (`OvershootIsReached`).
- A row is said to be written before its counter is raised, so that a crash loses at most one flush
  window, 100 rows or 2 seconds (`docs/design.md:482-484`). The code only queues it. What a crash can take
  is exactly the rows in the sink's queue and those written since the last flush
  (`LossWindow.CountedRowsAtStake`, `Sink.LossWindow`): fewer than 100 counted rows if and only if these
  two are fewer than 100, and none older than 2 seconds at the writer's last turn if that turn left the
  queue empty (`LossWindowInSeconds`). The queue can be longer: a worker of a cancelled job that finds
  the queue full of items counts a row for each without once waiting, so that the writer gets no turn.
  It counts 4 * concurrency + 1 rows that way, none of them on disk (`CountedRowsLost`), and no more
  (`BacklogBound`); with 25 workers that is over 100.
- The sink opens its path for appending. A job is always given a fresh path, and nothing calls `replay`
  to resume one (`docs/design.md:488-491`). A `ResultSink` that is given a file cut by a crash, as the
  purpose of `replay` suggests (`src/batchengine/core/sink.py:56-60`), loses its first new row if the
  file does not end at a line end: `AppendIsSafeExactly`.
- The bucket paces a job at the account's own limit. Because of its burst capacity that alone does not
  keep the job within a sliding-window quota of the same limit: `JobPacingExact` and `WiredJobCanBeRefused`.
- An item cap of 0 still takes in one row, and is the only cap that does not hold: `ItemCapExactly`.

## Model

| member | source | states |
|---|---|---|
| Retry.Classify | src/batchengine/core/retry.py:20-68 | only a well-formed 200 is a success; each other class belongs to exactly its statuses; tried more than once iff throttled or transient; more than 5 tries iff a 429; a malformed 200 gets 2 |
| Retry.BackoffDoubles | src/batchengine/core/retry.py:71-85 | the envelope starts at the base and doubles with every try until it meets its cap |
| Retry.BudgetLimitGrows | src/batchengine/core/retry.py:99-101 | the limit never falls while ingest goes on |
| Retry.RetryBudget.TryConsume | src/batchengine/core/retry.py:107-111 | the first retry is granted, and from then on each takes five items; never beyond the limit |
| Retry.CircuitBreaker.CountFailures | src/batchengine/core/retry.py:156 | the loop counts the failures in the window |
| Retry.CircuitBreaker.RecordOutcome | src/batchengine/core/retry.py:144-159 | the new fields are those of `Record` |
| Retry.CircuitBreaker.AllowRequest | src/batchengine/core/retry.py:161-177 | the new fields and the answer are those of `Allow` |
| Retry.WindowRefinement | src/batchengine/core/retry.py:139-159 | over every run the bounded deque is the last `window` outcomes recorded since the last closing, and a closed breaker's window does not trip |
| Retry.LeavesClosedExactlyOnTrip | src/batchengine/core/retry.py:155-159 | a closed breaker opens iff the outcome just recorded completes a window that trips |
| Retry.OpensExactly | src/batchengine/core/retry.py:155-159 | from closed, a recorded outcome opens the breaker iff the window then holds min(window, 10) outcomes or more and its failures are more than the threshold's share of its length |
| Retry.RefusesForCooldown | src/batchengine/core/retry.py:161-168 | from the moment it opens, whatever is recorded or asked meanwhile, a request is admitted iff the cooldown is over |
| Retry.ProbeAdmission | src/batchengine/core/retry.py:169-176 | while the probe has not reported, a request is admitted iff one so far came after the probe went stale |
| Retry.ProbeEpoch | src/batchengine/core/retry.py:161-176 | the request that ends the cooldown is the probe: from then on none is admitted until one comes later than the moment at which the probe goes stale |
| Retry.SecondProbeExample | src/batchengine/core/retry.py:169-176 | two requests admitted in one half-open epoch, for every breaker with a probe out |
| Retry.LateRequestAdmitted | src/batchengine/core/retry.py:161-177 | a request later than opening + cooldown + probe timeout is admitted in any state |
| RateLimit.TokenBucket.RefillAt | src/batchengine/core/ratelimit.py:37-41 | the new fields are those of `Refill` |
| RateLimit.TokenBucket.TryAcquire | src/batchengine/core/ratelimit.py:47-54 | one pass of the loop takes a token or names the wait of `TryTake` |
| RateLimit.TokenBucket.Acquire | src/batchengine/core/ratelimit.py:43-54 | a caller alone with the bucket gets its token after at most one sleep, of exactly the computed length |
| RateLimit.TokenBucket.Retune | src/batchengine/core/ratelimit.py:56-58 | refills at the old rate before the new rate, floored at 1e-6, applies |
| RateLimit.WaitSuffices | src/batchengine/core/ratelimit.py:48-54 | after the computed wait the token is there |
| RateLimit.WaitIsNeeded | src/batchengine/core/ratelimit.py:48-54 | a pass made before the computed wait is over, if that is above the floor, is told to wait again |
| RateLimit.RunValid | src/batchengine/core/ratelimit.py:37-58 | tokens stay in [0, capacity] over every run of acquires and rate changes |
| RateLimit.NothingWasted | src/batchengine/core/ratelimit.py:37-58 | over every run, tokens left plus grants are at least the initial tokens plus what the rate supplied, or the capacity if that is less |
| RateLimit.WindowPotential | src/batchengine/core/ratelimit.py:37-58 | tokens left plus grants in a window are at most capacity plus supply: the invariant behind the bound |
| RateLimit.WindowBound | src/batchengine/core/ratelimit.py:37-58 | for every interleaving, grants in any closed window are at most capacity plus the integral of the rate over it |
| RateLimit.SupplyAtMost | src/batchengine/core/ratelimit.py:37-58 | that integral is at most the top rate times the part of the window covered |
| RateLimit.PacedWindow | src/batchengine/core/ratelimit.py:37-58 | grants in [s, e] are at most capacity + maxRate * (e - s) |
| RateLimit.AdaptiveController.RecordSuccess | src/batchengine/core/ratelimit.py:108-113 | controller and bucket change as `OnSuccess` says |
| RateLimit.AdaptiveController.RecordThrottle | src/batchengine/core/ratelimit.py:115-128 | controller and bucket change as `OnThrottle` says |
| RateLimit.AdaptiveController.RecordRetryIssued | src/batchengine/core/ratelimit.py:130-131 | one more retry on the counter, nothing else |
| RateLimit.DecreasesSpaced | src/batchengine/core/ratelimit.py:125-128 | over every run the decreases are at least a cooldown apart |
| RateLimit.LowersExactly | src/batchengine/core/ratelimit.py:125-128 | over every run, a 429 multiplies the rate by the factor, down to the minimum, iff it comes a cooldown or more after the last that did; the times are those of the 429s |
| RateLimit.QuietThrottleLowers | src/batchengine/core/ratelimit.py:125-128 | a 429 with no other in the cooldown before it lowers the rate by exactly that, and none within a cooldown after it does |
| RateLimit.RateFloorByDecreases | src/batchengine/core/ratelimit.py:108-128 | the rate stays in its range and loses at most one factor per decrease |
| RateLimit.NoCollapse | src/batchengine/core/ratelimit.py:108-128 | after any mix of signals the rate is at least max(minRate, r0 * factor^(floor((t - t0)/cooldown) + 1)), however many 429s came |
| RateLimit.AdditiveIncrease | src/batchengine/core/ratelimit.py:108-113 | with no throttle in between, the rate is exactly min(maxRate, r0 + step * completed streaks) |
| RateLimit.ThrottleResetsStreak | src/batchengine/core/ratelimit.py:108-128 | after a 429 the rate grows by one step per full streak of successes counted anew |
| RateLimit.WiringInRange | src/batchengine/core/scheduler.py:85-89 | a job's wiring is in range, and its first 429 does not speed it up, iff its limit is at least 3 a minute |
| RateLimit.WiringInNumbers | src/batchengine/core/scheduler.py:85-89 | rate, burst, range, factor, step, streak and cooldown of a job for a limit a minute, as numbers |
| JobAttempts.BackoffTotal | src/batchengine/core/retry.py:71-85 | the seven envelopes add up to at most 7 caps and at most 254 bases |
| Quota.MockProvider.PruneWindow | src/batchengine/providers/mock.py:71-74 | the loop drops exactly the stale front of the deque |
| Quota.MockProvider.CheckCeiling | src/batchengine/providers/mock.py:93-105 | a call is accepted iff the pruned deque is below the ceiling; on a clock that has not stepped back, iff fewer than `ceiling` accepted calls lie in the closed window ending now; a refusal is a 429 whose reset second is the whole second at which the oldest call in that window leaves it, or the error that a ceiling of 0 raises |
| Quota.MockProvider.FinishCall | src/batchengine/providers/mock.py:86-141 | what follows the simulated delay, on the clock reading taken before it: injected fatal status first, then the quota, and the drawn fault exactly when the window is not full |
| Quota.MockProvider.Complete | src/batchengine/providers/mock.py:76-141 | the same for a call with no delay, and one more call counted; the first `failAfter` calls are served and every later one gets the injected status |
| Quota.DrawnMeans | src/batchengine/providers/mock.py:107-141 | how each drawn fault is classified, and that only a clean answer is billed as asked |
| Quota.PruneSuffix | src/batchengine/providers/mock.py:71-74 | pruning a suffix of a sorted history leaves the entries of the window |
| Quota.PrunedDequeIsWindow | src/batchengine/providers/mock.py:71-74 | the pruned deque equals the accepted calls of the closed window ending now |
| Quota.CallRefinesHistory | src/batchengine/providers/mock.py:93-105 | the deque decides exactly as counting the whole history would, and stays faithful to it |
| Quota.NoWindowOverCeiling | src/batchengine/providers/mock.py:93-105 | over any calls, no closed window, wherever it starts, holds more than `ceiling` accepted calls |
| Pacing.NeverRefused | src/batchengine/providers/mock.py:93-105 | if capacity + maxRate * (window + delay) < ceiling + 1, calls issued on grants are never refused, for any interleaving and rate changes |
| Pacing.GreedyIsRefused | src/batchengine/providers/mock.py:93-105 | from the bound on, the caller that takes every token at once is refused |
| Pacing.PacingExact | src/batchengine/providers/mock.py:93-105 | every schedule avoids a ceiling 429 iff capacity + maxRate * window < ceiling + 1 |
| JobLedger.ActWorks | src/batchengine/core/worker.py:100-310 | what any step of a worker changes and leaves alone: one row at most, each counter, budget, flags, queue |
| JobLedger.ActFeeds | src/batchengine/core/scheduler.py:151-177 | what any step of ingest, shutdown and cancel changes and leaves alone |
| JobLedger.CountedKept | src/batchengine/core/scheduler.py:254-261 | pending is queued + held + being put, in-flight is the workers in a call, the budget is within its growing limit, and calls are charged to items and retries: kept by every step |
| JobCustody.LocatedKept | src/batchengine/core/worker.py:267-310 | every ingested item is in exactly one place, kept by every step |
| JobCustody.DrainingKept | src/batchengine/core/scheduler.py:157-167 | sentinels stay behind all items and account for every worker that left, kept by every step |
| JobCustody.AgreementKept | src/batchengine/core/worker.py:74-97 | counters, usage and errors_by_class are those of the submitted rows, kept by every step |
| JobCustody.ErrorsSumToFailed | src/batchengine/core/worker.py:74-97 | errors_by_class sums to `failed` |
| JobAttempts.TracedKept | src/batchengine/core/worker.py:106-263 | every attempt trace obeys the caps of its own verdicts and its back-off envelope, kept by every step |
| JobAttempts.CallsTracedKept | src/batchengine/core/worker.py:131-159 | every provider call is one entry of one item's trace or is still out, kept by every step |
| JobAttempts.ProbedKept | src/batchengine/core/worker.py:125-187 | the owner of a half-open epoch is past the gate and has not reported, kept by every step |
| JobRuns.Conservation | src/batchengine/core/models.py:106-111 | at every step ingested == succeeded + failed + pending, rows are the resolved items, and each item is in one place |
| JobRuns.BoundedUpstreamWork | src/batchengine/core/worker.py:250-264 | calls so far are at most ingested + max(1, ingested/5); retries issued equal the budget used, within its limit |
| JobRuns.Backpressure | src/batchengine/core/scheduler.py:84 | pending lies in [0, 5 * concurrency + 1]; in-flight equals the workers inside a call |
| JobRuns.LedgerAgreement | src/batchengine/core/worker.py:74-97 | counters, usage totals and every entry of errors_by_class agree with the rows; only terminal labels; cancelled and fatal labels only after their event |
| JobRuns.AttemptTraces | src/batchengine/core/worker.py:162-263 | at most 8 calls an item; a retried call is below the cap of its own verdict; from the 5th on it was a 429, a malformed reply is retried only as the first; sleeps within the envelope; all calls are accounted for |
| JobRuns.NoWedgedBreaker | src/batchengine/core/retry.py:126-134 | while the breaker is half-open, the worker that opened the epoch is bound to report |
| JobRuns.HalfOpenEndsOnAnswer | src/batchengine/core/retry.py:146-154 | a step leaves half-open iff it is an answer, by any worker; a failure reopens, anything else closes |
| JobBreaker.BreakerMatches | src/batchengine/core/worker.py:125-187 | in every run the job's breaker is one run on its gate passes and answers, a reply counting against the upstream by its status alone |
| JobBreaker.JobOpensExactly | src/batchengine/core/retry.py:155-159 | from closed, a step of a job opens the breaker iff it is an answer that leaves min(window, 10) outcomes or more in the window and more of them against the upstream than the threshold's share |
| JobLateAnswer.LateAnswerCloses | src/batchengine/core/retry.py:144-154 | in every job with no item cap, two workers or more, min(window, 10) + 2 prompts and a threshold from 0 up to 1: a run in which the answer to a call sent while the breaker was closed, by a worker other than the prober, closes it |
| JobRuns.ExactlyOnce | src/batchengine/core/scheduler.py:151-202 | when the job has ended the queue is empty, nothing is pending, the final assertion holds and every ingested item has exactly one row |
| JobRuns.FinalStatusMeaning | src/batchengine/core/scheduler.py:229-241 | what each of SUCCEEDED, PARTIAL, FAILED and CANCELLED says about the rows, both ways |
| JobStopping.StepUnserved | src/batchengine/core/worker.py:107-123 | in a stopped job, an item that waits keeps exactly the calls it has, kept by every step |
| JobStopping.PromptAbort | src/batchengine/core/worker.py:107-137 | after the abort flag rises at most concurrency - 1 more calls start, only by workers already past the gate; nothing more is ingested; and every item queued, being put or at the gate gets its row with the calls it had then |
| JobStopping.PromptCancel | src/batchengine/core/worker.py:107-137 | after a cancel the same, with at most `concurrency` more calls |
| JobLaws.GateGoesOn | src/batchengine/core/worker.py:125-130 | at the gate of a job that goes on, a worker refused by the breaker polls again a quarter second later and any other counts a try; neither writes a row |
| JobLaws.GateStops | src/batchengine/core/worker.py:107-123 | at the gate of a stopped job the item gets one row: cancelled, else the class of the first fatal answer of the run, else fatal_auth |
| JobLaws.LabelsMatch | src/batchengine/core/worker.py:211-214 | in every run the abort classes are those of its 401, 403 and 402 answers, in order |
| JobLaws.TokenLaw | src/batchengine/core/ratelimit.py:46-54 | a pass that finds a whole token takes it and starts the call at once; any other starts none and waits a millisecond or more |
| JobLaws.PausesExactly | src/batchengine/core/worker.py:226-237 | an answer pauses its worker iff it is a 429 with a positive reset header; the worker then wakes after the pause, with no row written and no retry spent |
| JobLaws.RetriesExactly | src/batchengine/core/worker.py:239-263 | any other answer leads to another try after the back-off iff the tries so far are fewer than its status allows and a retry can be paid for, and else to a row |
| JobLaws.ResumesExactly | src/batchengine/core/worker.py:226-263 | the end of a pause leads to another try iff there were fewer than 8 and a retry can be paid for, and else to a row |
| JobLaws.SleepsAreServed | src/batchengine/core/worker.py:226-263 | in every run, whatever others do meanwhile, the next turn of a worker after an answer is the end of its pause, or another try, no sooner than pause or back-off is over, or else the next queue entry; which of these, by status, tries and budget |
| JobLaws.BackoffAfterPause | src/batchengine/core/worker.py:239-263 | the same for its next turn after a pause |
| JobLaws.AnyJitter | src/batchengine/core/retry.py:84-85 | the back-off after a call may be exactly any length from nothing up to its envelope |
| JobLaws.RowsBearTheirStatus | src/batchengine/core/worker.py:163-263 | each error row of a run bears the HTTP status of the answer at which it was written, 429 if at the end of a pause, and none otherwise |
| JobTermination.WorkDrops | src/batchengine/core/worker.py:107-263 | every step that is not a wait lowers the work left, calls being bounded by the budget |
| JobTermination.WaitingBurnsFuel | src/batchengine/core/worker.py:125-130 | every wait (breaker poll, token) uses up fuel that only real work can restore |
| JobTermination.StepLowersRank | src/batchengine/core/worker.py:107-263 | every step lowers one natural-number measure |
| JobTermination.RunsAreBounded | src/batchengine/core/worker.py:107-263 | no run is longer than a number fixed by input and configuration |
| JobTermination.NeverStuck | src/batchengine/core/scheduler.py:153-167 | an unfinished job always has a step other than a cancel |
| JobTermination.JobEnds | src/batchengine/core/scheduler.py:151-177 | a run that cannot go on has ended: all workers gone, exactly one row per ingested item |
| JobPacing.TraceMatches | src/batchengine/core/worker.py:129-132 | the calls that any run of a job starts are exactly the grants of one run of its bucket |
| JobPacing.JobWindowBound | src/batchengine/core/worker.py:129-132 | calls of a whole job in any closed window are at most capacity plus the integral of the rate |
| JobPacing.JobIsPaced | src/batchengine/core/worker.py:129-132 | hence at most capacity + maxRate * length, with every retune made by the controller |
| JobPacing.AllAccepted | src/batchengine/providers/mock.py:93-105 | a quota that never sees more than `ceiling` calls in a window accepts them all |
| JobPacing.JobNeverOverQuota | src/batchengine/providers/mock.py:93-105 | under the pacing condition an upstream with that ceiling accepts every call of every run of the job |
| JobRefusal.WiredJobCanBeRefused | src/batchengine/core/scheduler.py:85-89 | a job wired for exactly the upstream's limit has a run that the upstream does not accept, whatever the limit |
| JobRefusal.JobPacingExact | src/batchengine/providers/mock.py:93-105 | for a given bucket and controller, every run of every job is accepted iff capacity + maxRate * window < ceiling + 1 |
| JobRate.SignalsMatch | src/batchengine/core/worker.py:189-227 | between any two states of a job, controller and bucket move as in a controller run on the tokens, successes and 429s in between |
| JobRate.JobNoCollapse | src/batchengine/core/ratelimit.py:108-128 | in every run of a job, cut in two anywhere, the rate stays in range and since the cut above r0 * factor^(started cooldowns) |
| JobRate.JobLowersExactly | src/batchengine/core/ratelimit.py:125-128 | in every run of a job, a 429 lowers the rate, by exactly the factor down to the minimum, iff it comes a cooldown or more after the last 429 that did |
| JobRate.QuietAnswerLowers | src/batchengine/core/ratelimit.py:125-128 | so it does if no 429 came within the cooldown before it |
| JobSpend.CostAdds | src/batchengine/core/scheduler.py:111-114 | the cost of two usages together is the sum of their costs |
| JobSpend.CostIsPerMillion | src/batchengine/core/scheduler.py:111-114 | a million times the cost is tokens times price, input and output apart, for every usage |
| JobSpend.UsageIsBilled | src/batchengine/core/worker.py:192-196 | usage totals are the sums over the successful answers of the run, and of nothing else |
| JobSpend.SpendOvershoot | src/batchengine/core/scheduler.py:100-130 | with no failed item before the abort, the cost stays below cap + (49 + concurrency) * the dearest billed answer |
| JobOverspend.OvershootIsReached | src/batchengine/core/scheduler.py:100-130 | for every concurrency, cap, dearest answer and margin, a job and a run of it with no failed item that spends more than that bound less the margin |
| JobSpend.GuardIsOneTest | src/batchengine/core/scheduler.py:108-117 | in every reachable state the guard trips iff done is a positive multiple of 50 and cost * ingested >= cap * done |
| JobSpend.AbortedExactly | src/batchengine/core/worker.py:206-224 | a job is aborted iff some answer of the run was fatal, or a success at which the guard's tests held |
| JobOutcomes.ItemCapExactly | src/batchengine/core/scheduler.py:258-271 | no run takes in more rows than the item cap iff the cap is at least 1, or is 0 and there is no row |
| JobOverspend.NeverStopped | src/batchengine/core/scheduler.py:108-110 | a job whose every 50th row is malformed serves all its rows and pays for the others, whatever its cap |
| JobOverspend.SpendingIsUnbounded | src/batchengine/core/scheduler.py:108-110 | for every cap, price and amount, a job and a run of it over 50 rows and more that spends the amount and is not aborted |
| JobOutcomes.EverythingIngested | src/batchengine/core/scheduler.py:252-273 | a job never takes in more than its quota of rows; with no cancel or abort it takes in all of it, and each has one result row; a stopped one has read exactly one row that it dropped |
| JobOutcomes.RowsAreExplained | src/batchengine/core/worker.py:106-281 | each row answers its input row: malformed input costs no call, a prompt's row bears its last verdict's label or that of a stopped job, a fatal verdict is never retried, and a row given up below its cap met a spent budget |
| JobOutcomes.EarlyRowsMetASpentBudget | src/batchengine/core/worker.py:250-259 | a row given up below the cap of its last verdict was written when a retry had been spent and one more would have taken more than a fifth of the items |
| JobOutcomes.ThrottlesCounted | src/batchengine/core/ratelimit.py:123 | the reported throttle events are the 429 answers of the run |
| Scheduler.JobRunner.constructor | src/batchengine/core/scheduler.py:84-151 | the parts are wired to one another and the record starts as `Init` |
| Scheduler.JobRunner.EmitError | src/batchengine/core/worker.py:74-97 | row, counters and errors_by_class change as the step says |
| Scheduler.JobRunner.TakeNext | src/batchengine/core/worker.py:267-282 | from `queue.get` to the next suspension, as `OnGet` |
| Scheduler.JobRunner.PassGate | src/batchengine/core/worker.py:106-129 | cancel, abort, breaker, attempt count, as `OnPass` |
| Scheduler.JobRunner.TakeToken | src/batchengine/core/worker.py:130-132 | one pass of acquire and the start of the call, as `OnToken` |
| Scheduler.JobRunner.CheckSpend | src/batchengine/core/scheduler.py:100-130 | sets the abort flag iff `SpendGuardTrips` |
| Scheduler.JobRunner.BookResult | src/batchengine/core/worker.py:192-207 | usage, row and counters of a success |
| Scheduler.JobRunner.RecordResult | src/batchengine/core/worker.py:189-209 | the success branch, as `Succeed` |
| Scheduler.JobRunner.FatalAbort | src/batchengine/core/worker.py:211-224 | the fatal branch, as `Fatal` |
| Scheduler.JobRunner.RetryOrGiveUp | src/batchengine/core/worker.py:239-263 | cap, budget, back-off, as `Decide` |
| Scheduler.JobRunner.NoteReturn | src/batchengine/core/worker.py:158-187 | one call less in flight, one outcome for the breaker |
| Scheduler.JobRunner.HandleReply | src/batchengine/core/worker.py:136-263 | from the answer to the next suspension, as `OnAnswer` |
| Scheduler.JobRunner.ResumeThrottled | src/batchengine/core/worker.py:226-263 | the rest of a throttled attempt after its pause, as `OnResume` |
| Scheduler.JobRunner.CountRow | src/batchengine/core/scheduler.py:258-260 | a row is counted and the budget grown before the row is queued |
| Scheduler.JobRunner.IngestRow | src/batchengine/core/scheduler.py:254-261 | one turn of the ingest loop, as `OnPull` |
| Scheduler.JobRunner.PutRow | src/batchengine/core/scheduler.py:261-271 | the put and the item cap, as `OnPut` |
| Scheduler.JobRunner.PutShutdown | src/batchengine/core/scheduler.py:157-159 | one sentinel, as `OnClose` |
| Scheduler.JobRunner.Cancel | src/batchengine/core/scheduler.py:73-74 | sets the cancel flag and nothing else |
| Scheduler.JobRunner.DecideFinalStatus | src/batchengine/core/scheduler.py:229-241 | the branches compute `FinalStatus` |
| Scheduler.JobRunner.Turn | src/batchengine/core/worker.py:100-310 | whichever coroutine is resumed, the object changes as the machine's step does |
| Scheduler.JobRunner.RunSchedule | src/batchengine/core/scheduler.py:153-177 | a whole schedule leaves the object in the machine's state |
| Scheduler.RunJob | src/batchengine/core/scheduler.py:76-204 | if the schedule ends the job: one row per ingested item, and SUCCEEDED and PARTIAL mean what they say |
| Bridge.StreamItems.RunProducer | src/batchengine/core/ingest.py:110-119 | the thread's next move changes the shared variables as `ProducerStep` |
| Bridge.StreamItems.RunConsumer | src/batchengine/core/ingest.py:122-141 | the generator's next move changes them as `ConsumerStep` |
| Bridge.ProducerKeeps | src/batchengine/core/ingest.py:110-119 | handed out + queued + in the thread's hands is the parsed prefix, kept by the thread |
| Bridge.ConsumerKeeps | src/batchengine/core/ingest.py:122-141 | the same, kept by the generator, the early close and the drain |
| Bridge.InOrder | src/batchengine/core/ingest.py:123-141 | rows yielded are always an in-order prefix; the generator ends early iff its caller closed it, and else it has handed out all rows and raises iff the parse did |
| Bridge.BoundedReadAhead | src/batchengine/core/ingest.py:93-115 | rows pulled are at most yielded + 66 (65 before a stop), the queue at most 64 |
| Bridge.ReadAheadIsReached | src/batchengine/core/ingest.py:93-115 | for every parse of 67 rows or more, a run in which the caller has had one row and the thread has pulled 67 |
| Bridge.OneMoreRow | src/batchengine/core/ingest.py:96-114 | once the stop flag is up at most one more row is pulled and nothing more is yielded |
| Bridge.StepLowersRank | src/batchengine/core/ingest.py:133-139 | every turn but a spin of the drain lowers a measure; a spin changes nothing |
| Bridge.NeverStuck | src/batchengine/core/ingest.py:129-139 | until the generator is gone, some side has a turn that is not a spin |
| Bridge.CleanupEnds | src/batchengine/core/ingest.py:128-139 | at most 6 * rows + 7 turns of work in all, 138 after a stop, and then the thread has finished |
| ResultLog.FindLineEnd | src/batchengine/core/sink.py:66 | the first line end from a place on |
| ResultLog.Replay | src/batchengine/core/sink.py:55-80 | the loop over lines computes `Replayed`, the character-by-character meaning of the file |
| TornLog.StringRoundTrip | src/batchengine/core/sink.py:131 | a string printed with escapes (section 7 of RFC 8259) reads back as itself iff it holds no split surrogate pair |
| TornLog.EscapesOfTheStandard | src/batchengine/core/sink.py:70-71 | every escape stands for the character that section 7 of RFC 8259 gives it, and no other escape is read |
| TornLog.CapitalsAreText | src/batchengine/core/sink.py:131 | a capital letter in a printed string is one of the text: escapes are in lower case |
| TornLog.DecimalRoundTrip | src/batchengine/core/sink.py:131 | the numeral of an integer stands for that integer |
| TornLog.ObjectRoundTrip | src/batchengine/core/sink.py:70-71 | any flat object printed reads back field for field |
| TornLog.LineSays | src/batchengine/core/sink.py:25-45 | what a reader gets under every key of a printed row |
| TornLog.LabelTellsClass | src/batchengine/core/sink.py:37-45 | a reader of an error line tells the class of the failure from its label, and only from that label |
| TornLog.LastFieldDecides | src/batchengine/core/sink.py:71-76 | of two fields with one name the last counts, in any flat object |
| TornLog.StatusDecides | src/batchengine/core/sink.py:76-79 | any flat object counts as a success iff its status is just that, and else as a failure |
| TornLog.NumbersAreIds | src/batchengine/core/sink.py:75 | an id that is a whole number counts under its decimal numeral |
| TornLog.NoIdIsNone | src/batchengine/core/sink.py:75 | an object without an id counts under the text None |
| TornLog.LineEndsAlike | src/batchengine/core/sink.py:65-66 | a line feed, a carriage return and the two together end a line alike |
| TornLog.NoTrailingComma | src/batchengine/core/sink.py:70-73 | an object with a comma behind its last field does not read |
| TornLog.BlanksDoNotCount | src/batchengine/core/sink.py:70-73 | blanks, tabs and line ends between tokens do not count, and no other control character reads there (section 2 of RFC 8259) |
| TornLog.WhiteSpaceDoesNotCount | src/batchengine/core/sink.py:67 | a white-space character put before or behind a line changes nothing of what the line counts for |
| TornLog.NoPrefixParses | src/batchengine/core/sink.py:70-73 | no proper part of a printed object reads as an object |
| TornLog.AbsorbRow | src/batchengine/core/sink.py:69-79 | a whole row counts once, on its own counter, with its id |
| TornLog.AbsorbTorn | src/batchengine/core/sink.py:70-73 | a torn row counts for nothing |
| TornLog.TornLogRecovery | src/batchengine/core/sink.py:55-80 | for any rows and any character prefix of their file, replay reports exactly the rows whose full text lies in the prefix |
| TornLog.JoinedLineIsLost | src/batchengine/core/sink.py:70-73 | a torn row with a row appended to it counts for nothing |
| TornLog.AppendAfterCrash | src/batchengine/core/sink.py:96-99 | what replay reports after a restart has appended to a cut file |
| TornLog.AppendIsSafeExactly | src/batchengine/core/sink.py:55-99 | appending keeps every wholly written row visible iff the file was cut at a line end |
| Sink.ResultSink.Put | src/batchengine/core/sink.py:101-105 | a row, or the closing None, goes to the end of the queue |
| Sink.ResultSink.WriteLine | src/batchengine/core/sink.py:128-132 | the file's text grows by the row's line |
| Sink.ResultSink.FlushIfDue | src/batchengine/core/sink.py:134-140 | all that was written is synced iff a flush is due |
| Sink.ResultSink.Iterate | src/batchengine/core/sink.py:113-140 | one turn of the writer's loop leaves fields and file as the step says |
| Sink.DurablePrefix | src/batchengine/core/sink.py:113-145 | what is on disk is a prefix of the submission order; fewer than 100 written rows are not, each written less than 2 seconds before the last turn |
| Sink.LossWindow | src/batchengine/core/sink.py:101-140 | before close, submitted rows not on disk are exactly the queued ones and those unflushed, each of these written less than 2 seconds before the last turn; so fewer than 100 iff the two are |
| Sink.LossWindowInSeconds | src/batchengine/core/sink.py:113-140 | if the writer's last turn left its queue empty, a row not on disk was written less than 2 seconds before it or submitted since |
| Sink.FlushesAreBatched | src/batchengine/core/sink.py:134-140 | at most one flush per 100 rows written and one per 2 seconds passed, besides the one at close |
| Sink.ClosedMeansDurable | src/batchengine/core/sink.py:104-126 | once the writer has ended all rows submitted before close are on disk; all rows iff none came later |
| Sink.CrashRecovery | src/batchengine/core/sink.py:55-145 | stop at any point: replay of what is on disk gives the first n submitted rows, n no less than the flushed ones |
| ResultFile.ClosedFileReplays | src/batchengine/core/sink.py:104-111 | once the sink of a finished job is closed behind its last row, the file is whole on disk and replays to the job's own counters and ids |
| LossWindow.CountedRowsAtStake | src/batchengine/core/worker.py:78-97 | a job's counted rows not on disk are those in the sink's queue and those unflushed; a crash takes fewer than 100 iff these are fewer |
| LossWindow.BacklogBound | src/batchengine/core/worker.py:267-310 | a worker that runs alone writes at most 4 * concurrency + 1 rows, and all of them, with nothing new taken in, at most 5 * concurrency + 1 |
| LossWindow.BacklogIsReached | src/batchengine/core/worker.py:107-117 | in every job with 5 * concurrency prompts, a run in which one worker counts 4 * concurrency + 1 rows without waiting |
| LossWindow.CountedRowsLost | src/batchengine/core/worker.py:78-97 | for every such job, a run that counts 4 * concurrency + 1 rows and a sink run of just these rows, after which a replay of the file finds none |
| ResultFile.CrashedFileReplays | src/batchengine/core/sink.py:55-80 | replaying a crashed job's file counts no item twice and never exceeds the job's counters |

## Left out

- HTTP routes, settings, job store, webhooks, metrics, the cross-run spend ledger and the live provider: plumbing and foreign calls. `store.save` is a suspension point with no effect on the state modelled.
- Reading JSON and JSONL input, format sniffing and item ids: the parsed rows are the input, each a prompt or an error row.
- A parse error in the middle of a job: the bridge models it, the job machine takes a row stream that ends normally.
- Task cancellation and process shutdown: only the cooperative cancel event is modelled.
- The safety net in `worker_loop` for an exception that escapes `process_item`: the modelled code raises none.
- Floating point: times, rates and costs are reals, and the retry budget is a fifth rounded down.
- Random draws: jitter is any value in its interval, a reset pause any non-negative value, a fault any of those listed.
- Reset headers that are not finite numbers.
- Latency statistics, Little's law, status snapshots, log records and abort messages.
- default_concurrency: the number of workers is a parameter, at least 1.
- RateLimit.TokenBucket.Acquire: is about a caller that has the bucket to itself; callers that share it are the runs of single passes in `WindowBound`, `JobPacing` and `JobTermination`.
- Quota.MockProvider.FinishCall: leaves out the advertised headers other than the reset second, which only the log reads.
- Quota.MockProvider.Complete: leaves out the same headers.
- ResultLog.ParseLine: reads flat objects only; nested values, `true`, `false` and the exact grammar of numbers are not modelled, and the text of a float is any number token.
- ResultFile.ClosedFileReplays: item ids, response texts, messages and latencies are parameters, because the job machine leaves them out.
- The file system: a flush makes all written text durable, and after a crash the file holds some prefix of the written text.
