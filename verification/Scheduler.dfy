// core/scheduler.py and core/worker.py in place: the object whose fields the ingest loop and
// the worker coroutines update. Each method is one stretch of code between two suspension
// points and is proved to change the fields exactly as the step of the same name in `Job` does,
// so everything proved about runs of that machine holds of this object.

module Scheduler {
  import opened Models
  import opened Retry
  import opened RateLimit
  import opened Job
  import JobCustody
  import JobRuns

  lemma ReturnedFrame(c: Config, s: State, kind: FailureClass)
    ensures Returned(c, s, kind).workers == s.workers && Returned(c, s, kind).now == s.now
  {
  }

  lemma SuccessIsResponse(reply: Reply)
    requires Classify(reply).kind == Success
    ensures reply.Response?
  {
  }

  lemma {:induction false} PrefixFeasible(c: Config, s: State, es: seq<Event>, i: nat)
    requires Feasible(c, s, es) && i <= |es|
    ensures Feasible(c, s, es[..i])
  {
    if i == |es| {
      assert es[..i] == es;
    } else {
      PrefixFeasible(c, s, Front(es), i);
      assert Front(es)[..i] == es[..i];
    }
  }

  /** The job record, the queue and the worker context. `workers[w]` is where coroutine `w` is
      suspended, with its local variables; `starts` and `prober` are history. */
  class JobRunner {
    const cfg: Config
    const bucket: TokenBucket
    const controller: AdaptiveController
    const breaker: CircuitBreaker
    const budget: RetryBudget

    var now: real
    var next: nat
    var ingest: Ingest
    var queue: seq<Entry>
    var workers: seq<Stage>
    var ingested: nat
    var succeeded: nat
    var failed: nat
    var inFlight: int
    var pending: int
    var inputTokens: int
    var outputTokens: int
    var errors: map<FailureClass, nat>
    var log: seq<OutRow>
    var cancelled: bool
    var aborted: bool
    var abortClass: seq<FailureClass>
    ghost var starts: seq<real>
    ghost var prober: nat

    /** The parts are wired to one another as `run` wires them. */
    ghost predicate Wired() {
      && controller.cfg == cfg.controller && controller.bucket == bucket
      && breaker.cfg == cfg.breaker && 1 <= cfg.breaker.window
    }

    ghost function View(): State
      reads this, bucket, controller, breaker, budget
    {
      State(now, next, ingest, queue, workers,
            Counts(ingested, succeeded, failed, inFlight, pending),
            Books(inputTokens, outputTokens, errors, log),
            Flags(cancelled, aborted, abortClass),
            Control(breaker.View(), bucket.View(), controller.View()),
            Budget(budget.totalItems, budget.used), starts, prober)
    }

    constructor (c: Config)
      requires ValidConfig(c) && c.bucket.tokens == c.bucket.capacity
      ensures Wired() && cfg == c && View() == Init(c)
      ensures fresh(bucket) && fresh(controller) && fresh(breaker) && fresh(budget)
    {
      cfg := c;
      var b := new TokenBucket(c.bucket.rate, c.bucket.capacity, c.bucket.last);
      bucket := b;
      controller := new AdaptiveController(c.controller, b);
      breaker := new CircuitBreaker(c.breaker);
      budget := new RetryBudget(1);
      now, next, ingest, queue := c.bucket.last, 0, Reading, [];
      workers := IdleWorkers(c.concurrency);
      ingested, succeeded, failed, inFlight, pending := 0, 0, 0, 0, 0;
      inputTokens, outputTokens, errors, log := 0, 0, map[], [];
      cancelled, aborted, abortClass := false, false, [];
      starts, prober := [], 0;
    }

    // -------------------------------------------------------------- worker.py

    method EmitError(w: nat, task: Task, kind: FailureClass, attempt: nat, status: Option<int>)
      requires w < |workers|
      modifies this`log, this`failed, this`pending, this`errors, this`workers
      ensures View() == Job.EmitError(old(View()), w, task, kind, attempt, status)
    {
      hide Bump;
      var rows, fails, left := log + [Failed(task, kind, attempt, status)], failed + 1, pending - 1;
      var tally, ws := Bump(errors, kind), workers[w := Idle];
      log, failed, pending, errors, workers := rows, fails, left, tally, ws;
    }

    /** `worker_loop` from one `queue.get` to the next suspension. */
    method TakeNext(w: nat)
      requires w < |workers| && queue != []
      modifies this`queue, this`log, this`failed, this`pending, this`errors, this`workers
      ensures View() == OnGet(old(View()), w)
    {
      hide Bump;
      var entry := queue[0];
      queue := queue[1..];
      match entry
      case Shutdown => workers := workers[w := Exited];
      case Broken(idx) => EmitError(w, NewTask(idx), InvalidInput, 1, None);
      case Item(idx) => workers := workers[w := Gate(NewTask(idx), now)];
    }

    /** The top of the attempt loop: cancel, abort, breaker. */
    method PassGate(w: nat)
      requires Wired() && w < |workers| && workers[w].Gate?
      modifies this`log, this`failed, this`pending, this`errors, this`workers, this`prober, breaker
      ensures View() == OnPass(cfg, old(View()), w)
    {
      hide Bump, Allow;
      var task := workers[w].task;
      var attempt := if task.attempt == 0 then 1 else task.attempt;
      if cancelled {
        EmitError(w, task, Cancelled, attempt, None);
        return;
      }
      if aborted {
        var kind := if abortClass != [] then abortClass[0] else FatalAuth;
        EmitError(w, task, kind, attempt, None);
        return;
      }
      ghost var opening := breaker.state == Open;
      var granted := breaker.AllowRequest(now);
      if !granted {
        workers := workers[w := Gate(task, now + POLL_SECONDS)];
        return;
      }
      if opening { prober := w; }
      workers := workers[w := Acquire(task.(attempt := task.attempt + 1), now)];
    }

    /** One pass of `bucket.acquire`, and the start of the call once it grants. */
    method TakeToken(w: nat)
      requires Wired() && w < |workers| && workers[w].Acquire?
      modifies this`workers, this`inFlight, this`starts, bucket
      ensures View() == OnToken(old(View()), w)
    {
      hide TryTake;
      var task := workers[w].task;
      var take := bucket.TryAcquire(now);
      if take.Granted? {
        var busy, ws := inFlight + 1, workers[w := Calling(task)];
        ghost var begun := starts + [now];
        inFlight, starts, workers := busy, begun, ws;
      } else {
        workers := workers[w := Acquire(task, now + take.seconds)];
      }
    }

    /** `on_spend_check`. */
    method CheckSpend()
      modifies this`aborted
      ensures View() == SpendCheck(cfg, old(View()))
    {
      var done := succeeded + failed;
      if done == 0 || done % SPEND_CHECK_EVERY != 0 { return; }
      var cost := Cost(cfg, inputTokens, outputTokens);
      var projected := Mul(cost / done as real, Max(ingested, done) as real);
      if cost >= cfg.spendCap || projected >= cfg.spendCap { aborted := true; }
    }

    method BookResult(w: nat, task: Task, inputs: int, outputs: int)
      requires w < |workers|
      modifies this`inputTokens, this`outputTokens, this`log, this`succeeded, this`pending, this`workers
      ensures var s := old(View());
        View() == s.(books := s.books.(inputTokens := s.books.inputTokens + inputs,
                                       outputTokens := s.books.outputTokens + outputs,
                                       log := s.books.log + [Done(task, inputs, outputs)]),
                     counts := s.counts.(succeeded := s.counts.succeeded + 1, pending := s.counts.pending - 1),
                     workers := s.workers[w := Idle])
    {
      var spentIn, spentOut := inputTokens + inputs, outputTokens + outputs;
      var rows, wins, left := log + [Done(task, inputs, outputs)], succeeded + 1, pending - 1;
      var ws := workers[w := Idle];
      inputTokens, outputTokens, log, succeeded, pending, workers := spentIn, spentOut, rows, wins, left, ws;
    }

    method RecordResult(w: nat, task: Task, reply: Reply)
      requires Wired() && w < |workers| && reply.Response?
      modifies this`inputTokens, this`outputTokens, this`log, this`succeeded, this`pending, this`workers
      modifies this`aborted, controller, bucket
      ensures View() == Succeed(cfg, old(View()), w, task, reply)
    {
      hide OnSuccess, SpendGuardTrips;
      controller.RecordSuccess(now);
      BookResult(w, task, reply.inputTokens, reply.outputTokens);
      CheckSpend();
    }

    method FatalAbort(w: nat, task: Task, kind: FailureClass, status: Option<int>)
      requires w < |workers|
      modifies this`log, this`failed, this`pending, this`errors, this`workers, this`aborted, this`abortClass
      ensures View() == Fatal(old(View()), w, task, kind, status)
    {
      hide Bump;
      abortClass := abortClass + [kind];
      aborted := true;
      EmitError(w, task, kind, task.attempt, status);
    }

    /** The end of the loop body: give up, or spend a retry and back off. */
    method RetryOrGiveUp(w: nat, task: Task, v: Verdict, status: Option<int>, delay: real)
      requires w < |workers|
      modifies this`log, this`failed, this`pending, this`errors, this`workers, controller`retries, budget`used
      ensures View() == Decide(old(View()), w, task, v, status, delay)
    {
      hide Bump, BudgetLimit;
      if task.attempt >= v.cap {
        var kind := if v.kind == Throttled || v.kind == Transient then TransientExhausted else v.kind;
        EmitError(w, task, kind, task.attempt, status);
        return;
      }
      var granted := budget.TryConsume();
      if !granted {
        EmitError(w, task, TransientExhausted, task.attempt, status);
        return;
      }
      controller.RecordRetryIssued();
      workers := workers[w := Gate(task.(slept := task.slept + delay), now + delay)];
    }

    method NoteReturn(kind: FailureClass)
      requires Wired()
      modifies this`inFlight, breaker
      ensures View() == Returned(cfg, old(View()), kind)
    {
      hide Record;
      inFlight := inFlight - 1;
      breaker.RecordOutcome(BreakerFailure(kind), now);
    }

    /** From the return of `provider.complete` to the next suspension. */
    method HandleReply(w: nat, reply: Reply, pause: real, delay: real)
      requires Wired() && w < |workers| && workers[w].Calling?
      modifies this, bucket, controller, breaker, budget
      ensures View() == OnAnswer(cfg, old(View()), w, reply, pause, delay)
    {
      hide Returned, OnThrottle, Succeed, Fatal, Decide, Classify;
      var v := Classify(reply);
      var status := StatusOf(reply);
      var task := workers[w].task;
      task := task.(trace := task.trace + [v]);
      NoteReturn(v.kind);
      ReturnedFrame(cfg, old(View()), v.kind);
      if v.kind == Success {
        SuccessIsResponse(reply);
        RecordResult(w, task, reply);
        return;
      }
      if IsFatal(v.kind) {
        FatalAbort(w, task, v.kind, status);
        return;
      }
      if v.kind == Throttled {
        controller.RecordThrottle(now);
        if reply.Response? && reply.resetEpoch > 0.0 {
          workers := workers[w := Pausing(task, v, status, now + pause)];
          return;
        }
      }
      RetryOrGiveUp(w, task, v, status, delay);
    }

    /** The rest of a throttled attempt, after `honor_reset_header` has slept. */
    method ResumeThrottled(w: nat, delay: real)
      requires w < |workers| && workers[w].Pausing?
      modifies this`log, this`failed, this`pending, this`errors, this`workers, controller`retries, budget`used
      ensures View() == OnResume(old(View()), w, delay)
    {
      hide Decide;
      RetryOrGiveUp(w, workers[w].task, workers[w].verdict, workers[w].status, delay);
    }

    // -------------------------------------------------------------- scheduler.py

    /** A row is counted before it is queued, and the retry budget grows with the count. */
    method CountRow(row: Row)
      modifies this`next, this`ingest, this`ingested, this`pending, budget`totalItems
      ensures var s := old(View());
        View() == s.(next := s.next + 1,
                     counts := s.counts.(ingested := s.counts.ingested + 1, pending := s.counts.pending + 1),
                     budget := s.budget.(total := s.counts.ingested + 1),
                     ingest := Putting(if row.Prompt? then Item(s.counts.ingested) else Broken(s.counts.ingested)))
    {
      var idx, taken, left := ingested, next + 1, pending + 1;
      var putting := Putting(if row.Prompt? then Item(idx) else Broken(idx));
      next, ingested, pending, budget.totalItems, ingest := taken, idx + 1, left, idx + 1, putting;
    }

    /** One turn of `_ingest_and_dispatch` up to its `queue.put`. */
    method IngestRow()
      modifies this`next, this`ingest, this`ingested, this`pending, budget`totalItems
      ensures View() == OnPull(cfg, old(View()))
    {
      if next >= |cfg.rows| {
        ingest := Closing(0);
        return;
      }
      var row := cfg.rows[next];
      if cancelled || aborted {
        next, ingest := next + 1, Closing(0);
        return;
      }
      CountRow(row);
    }

    method PutRow()
      requires ingest.Putting?
      modifies this`queue, this`ingest
      ensures View() == OnPut(cfg, old(View()))
    {
      queue := queue + [ingest.entry];
      if cfg.maxItems.Some? && ingested >= cfg.maxItems.value { ingest := Closing(0); } else { ingest := Reading; }
    }

    method PutShutdown()
      requires ingest.Closing?
      modifies this`queue, this`ingest
      ensures View() == OnClose(old(View()))
    {
      queue := queue + [Shutdown];
      ingest := Closing(ingest.sent + 1);
    }

    method Cancel()
      modifies this`cancelled
      ensures View() == old(View()).(flags := old(View()).flags.(cancelled := true))
    {
      cancelled := true;
    }

    method DecideFinalStatus() returns (status: Status)
      ensures status == FinalStatus(View())
    {
      if cancelled { return CANCELLED; }
      if aborted { return FAILED; }
      if ingested == 0 { return SUCCEEDED; }
      if failed == 0 { return SUCCEEDED; }
      if succeeded == 0 { return FAILED; }
      return PARTIAL;
    }

    // -------------------------------------------------------------- the event loop

    /** One turn of the event loop: whichever coroutine the schedule resumes. */
    method Turn(e: Event)
      requires Wired() && Enabled(cfg, View(), e)
      modifies this, bucket, controller, breaker, budget
      ensures View() == Step(cfg, old(View()), e)
    {
      hide OnGet, OnPass, OnToken, OnAnswer, OnResume, OnPull, OnPut, OnClose, DelayOk;
      now := e.at;
      match e
      case Pull(_) => IngestRow();
      case Put(_) => PutRow();
      case Close(_) => PutShutdown();
      case Join(_) => ingest := Finished;
      case Cancel(_) => Cancel();
      case Get(w, _) => TakeNext(w);
      case Pass(w, _) => PassGate(w);
      case Token(w, _) => TakeToken(w);
      case Answer(w, _, reply, pause, delay) => HandleReply(w, reply, pause, delay);
      case Resume(w, _, delay) => ResumeThrottled(w, delay);
    }

    method RunSchedule(es: seq<Event>)
      requires Wired() && Feasible(cfg, View(), es)
      modifies this, bucket, controller, breaker, budget
      ensures View() == Exec(cfg, old(View()), es)
    {
      hide Enabled, Step;
      ghost var s0 := View();
      var i := 0;
      assert es[..|es|] == es;
      while i < |es|
        invariant 0 <= i <= |es|
        invariant Feasible(cfg, s0, es) && Feasible(cfg, s0, es[..i]) && View() == Exec(cfg, s0, es[..i])
      {
        PrefixFeasible(cfg, s0, es, i + 1);
        assert Front(es[..i + 1]) == es[..i];
        Turn(es[i]);
        i := i + 1;
      }
    }
  }

  /** A whole job, on any schedule: the rows it hands to the sink, and its final status. If the
      schedule runs it to the end, then the assertion at the end of `run` holds, every ingested
      item has exactly one row, and SUCCEEDED means that each of those is a success row. */
  method RunJob(c: Config, es: seq<Event>) returns (ended: bool, status: Status, ingested: nat, rows: seq<OutRow>)
    requires ValidConfig(c) && c.bucket.tokens == c.bucket.capacity && Feasible(c, Init(c), es)
    ensures ended <==> Exec(c, Init(c), es).ingest.Finished?
    ensures rows == Exec(c, Init(c), es).books.log && status == FinalStatus(Exec(c, Init(c), es))
    ensures ended ==> |rows| == ingested
    ensures ended ==> forall i: nat :: JobCustody.Resolved(rows, i) == if i < ingested then 1 else 0
    ensures ended && status == SUCCEEDED ==> JobCustody.Successes(rows) == ingested
    ensures ended && status == PARTIAL ==> 0 < JobCustody.Successes(rows) < ingested
  {
    hide Exec, Feasible;
    var runner := new JobRunner(c);
    runner.RunSchedule(es);
    ended, ingested, rows := runner.ingest == Finished, runner.ingested, runner.log;
    status := runner.DecideFinalStatus();
    if ended {
      JobRuns.ExactlyOnce(c, es);
      JobRuns.FinalStatusMeaning(c, es);
      assert runner.succeeded + runner.failed == runner.ingested;
    }
  }
}
