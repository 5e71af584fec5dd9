// core/worker.py and core/scheduler.py: one job as a step machine.
//
// The event loop is cooperative, so every stretch of code between two points that can really
// suspend is one atomic step. Every point that might suspend is a step boundary here (a get
// from a non-empty queue, a token that is at hand), so the machine has at least the
// interleavings of the program. Each step carries the reading of the one monotone clock.

module Job {
  import opened Models
  import opened Retry
  import opened RateLimit

  // ---------------------------------------------------------------- configuration

  /** A parsed input row: a prompt, or a row that ingest has already turned into an error. */
  datatype Row = Prompt | Malformed

  datatype Config = Config(
    concurrency: nat,
    rows: seq<Row>,
    maxItems: Option<int>,
    breaker: BreakerConfig,
    controller: ControllerConfig,
    bucket: Bucket,
    retryBase: real,
    retryCap: real,
    spendCap: real,
    inputPrice: real,
    outputPrice: real)

  predicate ValidConfig(c: Config) {
    c.concurrency >= 1 && ValidBreakerConfig(c.breaker) && ValidBucket(c.bucket)
  }

  const QUEUE_MULTIPLIER: nat := 4
  const POLL_SECONDS: real := 0.25
  const SPEND_CHECK_EVERY: nat := 50

  function Slots(c: Config): nat { c.concurrency * QUEUE_MULTIPLIER }

  // ---------------------------------------------------------------- state

  /** One item being worked on: its place in ingest order, the worker's `attempt` variable, and
      the history of its finished calls and of its back-off sleeps. */
  datatype Task = Task(idx: nat, attempt: nat, trace: seq<Verdict>, slept: real)

  /** Where a worker coroutine is suspended. */
  datatype Stage =
    | Idle                                                                // queue.get
    | Gate(task: Task, wake: real)                                        // top of the attempt loop
    | Acquire(task: Task, wake: real)                                     // bucket.acquire
    | Calling(task: Task)                                                 // provider.complete
    | Pausing(task: Task, verdict: Verdict, status: Option<int>, wake: real)  // honor_reset_header
    | Exited

  datatype Entry = Item(idx: nat) | Broken(idx: nat) | Shutdown

  datatype Ingest = Reading | Putting(entry: Entry) | Closing(sent: nat) | Finished

  /** A submitted result row (response text and message text are not modelled). */
  datatype OutRow =
    | Done(task: Task, inputTokens: int, outputTokens: int)
    | Failed(task: Task, kind: FailureClass, attempt: nat, status: Option<int>)

  datatype Counts = Counts(ingested: nat, succeeded: nat, failed: nat, inFlight: int, pending: int)

  /** Usage totals, errors_by_class, and every row handed to the sink so far, in order. */
  datatype Books = Books(inputTokens: int, outputTokens: int, errors: map<FailureClass, nat>, log: seq<OutRow>)

  datatype Flags = Flags(cancelled: bool, aborted: bool, abortClass: seq<FailureClass>)

  datatype Control = Control(breaker: Breaker, bucket: Bucket, controller: Controller)

  datatype Budget = Budget(total: int, used: nat)

  /** `starts` (the start time of every provider call) and `prober` (the worker whose request
      made the breaker half-open) are history; everything else is the program's own state. */
  datatype State = State(
    now: real,
    next: nat,
    ingest: Ingest,
    queue: seq<Entry>,
    workers: seq<Stage>,
    counts: Counts,
    books: Books,
    flags: Flags,
    control: Control,
    budget: Budget,
    starts: seq<real>,
    prober: nat)

  function IdleWorkers(n: nat): (ws: seq<Stage>)
    ensures |ws| == n && forall w :: 0 <= w < n ==> ws[w] == Idle
  {
    if n == 0 then [] else IdleWorkers(n - 1) + [Idle]
  }

  function Init(c: Config): State {
    State(c.bucket.last, 0, Reading, [], IdleWorkers(c.concurrency), Counts(0, 0, 0, 0, 0),
          Books(0, 0, map[], []), Flags(false, false, []),
          Control(FRESH_BREAKER, c.bucket, FRESH_CONTROLLER), Budget(1, 0), [], 0)
  }

  // ---------------------------------------------------------------- events

  datatype Event =
    | Pull(at: real)
    | Put(at: real)
    | Close(at: real)
    | Join(at: real)
    | Cancel(at: real)
    | Get(w: nat, at: real)
    | Pass(w: nat, at: real)
    | Token(w: nat, at: real)
    | Answer(w: nat, at: real, reply: Reply, pause: real, delay: real)
    | Resume(w: nat, at: real, delay: real)

  predicate DelayOk(c: Config, task: Task, delay: real) {
    0.0 <= delay <= MaxReal(0.0, BackoffCeiling(c.retryBase, c.retryCap, task.attempt))
  }

  predicate Enabled(c: Config, s: State, e: Event) {
    && s.now <= e.at
    && match e
       case Pull(_) => s.ingest.Reading?
       case Put(_) => s.ingest.Putting? && |s.queue| < Slots(c)
       case Close(_) => s.ingest.Closing? && s.ingest.sent < c.concurrency && |s.queue| < Slots(c)
       case Join(_) =>
         s.ingest == Closing(c.concurrency) && forall w :: 0 <= w < |s.workers| ==> s.workers[w] == Exited
       case Cancel(_) => !s.flags.cancelled && s.ingest != Finished
       case Get(w, _) => w < |s.workers| && s.workers[w].Idle? && s.queue != []
       case Pass(w, at) => w < |s.workers| && s.workers[w].Gate? && s.workers[w].wake <= at
       case Token(w, at) => w < |s.workers| && s.workers[w].Acquire? && s.workers[w].wake <= at
       case Answer(w, _, _, pause, delay) =>
         w < |s.workers| && s.workers[w].Calling? && 0.0 <= pause && DelayOk(c, s.workers[w].task, delay)
       case Resume(w, at, delay) =>
         && w < |s.workers| && s.workers[w].Pausing?
         && s.workers[w].wake <= at && DelayOk(c, s.workers[w].task, delay)
  }

  // ---------------------------------------------------------------- steps

  function Bump(errors: map<FailureClass, nat>, kind: FailureClass): map<FailureClass, nat> {
    errors[kind := (if kind in errors then errors[kind] else 0) + 1]
  }

  /** `_emit_error`: one error row, one item off pending, and the worker free again. */
  function EmitError(s: State, w: nat, task: Task, kind: FailureClass, attempt: nat, status: Option<int>): State
    requires w < |s.workers|
  {
    s.(workers := s.workers[w := Idle],
       books := s.books.(log := s.books.log + [Failed(task, kind, attempt, status)],
                         errors := Bump(s.books.errors, kind)),
       counts := s.counts.(failed := s.counts.failed + 1, pending := s.counts.pending - 1))
  }

  function NewTask(idx: nat): Task { Task(idx, 0, [], 0.0) }

  function OnGet(s: State, w: nat): State
    requires w < |s.workers| && s.queue != []
  {
    var s' := s.(queue := s.queue[1..]);
    match s.queue[0]
    case Shutdown => s'.(workers := s.workers[w := Exited])
    case Broken(idx) => EmitError(s', w, NewTask(idx), InvalidInput, 1, None)
    case Item(idx) => s'.(workers := s.workers[w := Gate(NewTask(idx), s.now)])
  }

  function OnPass(c: Config, s: State, w: nat): State
    requires w < |s.workers| && s.workers[w].Gate?
  {
    var task := s.workers[w].task;
    var attempt := if task.attempt == 0 then 1 else task.attempt;
    if s.flags.cancelled then EmitError(s, w, task, Cancelled, attempt, None)
    else if s.flags.aborted then
      EmitError(s, w, task, if s.flags.abortClass != [] then s.flags.abortClass[0] else FatalAuth, attempt, None)
    else
      var p := Allow(c.breaker, s.control.breaker, s.now);
      var s' := s.(control := s.control.(breaker := p.breaker));
      if p.granted then
        s'.(workers := s.workers[w := Acquire(task.(attempt := task.attempt + 1), s.now)],
            prober := if s.control.breaker.state == Open then w else s.prober)
      else s'.(workers := s.workers[w := Gate(task, s.now + POLL_SECONDS)])
  }

  function OnToken(s: State, w: nat): State
    requires w < |s.workers| && s.workers[w].Acquire?
  {
    var (b, take) := TryTake(s.control.bucket, s.now);
    var s' := s.(control := s.control.(bucket := b));
    match take
    case Granted =>
      s'.(workers := s.workers[w := Calling(s.workers[w].task)],
          counts := s.counts.(inFlight := s.counts.inFlight + 1),
          starts := s.starts + [s.now])
    case Wait(seconds) =>
      s'.(workers := s.workers[w := Acquire(s.workers[w].task, s.now + seconds)])
  }

  function Cost(c: Config, inputTokens: int, outputTokens: int): real {
    Mul(inputTokens as real / 1000000.0, c.inputPrice) + Mul(outputTokens as real / 1000000.0, c.outputPrice)
  }

  /** The two tests of the spend guard: the cost so far, and its projection to all ingested items. */
  predicate SpendTrips(c: Config, cost: real, done: int, ingested: int)
    requires done > 0
  {
    cost >= c.spendCap || Mul(cost / done as real, Max(ingested, done) as real) >= c.spendCap
  }

  predicate SpendGuardTrips(c: Config, counts: Counts, books: Books) {
    var done := counts.succeeded + counts.failed;
    done > 0 && done % SPEND_CHECK_EVERY == 0
    && SpendTrips(c, Cost(c, books.inputTokens, books.outputTokens), done, counts.ingested)
  }

  /** `on_spend_check`. The abort class stays as it is when the guard trips. */
  function SpendCheck(c: Config, s: State): State {
    if SpendGuardTrips(c, s.counts, s.books) then s.(flags := s.flags.(aborted := true)) else s
  }

  function Succeed(c: Config, s: State, w: nat, task: Task, reply: Reply): State
    requires w < |s.workers| && reply.Response?
  {
    var t := OnSuccess(c.controller, s.control.controller, s.control.bucket, s.now);
    SpendCheck(c, s.(
      control := s.control.(controller := t.controller, bucket := t.bucket),
      books := s.books.(inputTokens := s.books.inputTokens + reply.inputTokens,
                        outputTokens := s.books.outputTokens + reply.outputTokens,
                        log := s.books.log + [Done(task, reply.inputTokens, reply.outputTokens)]),
      counts := s.counts.(succeeded := s.counts.succeeded + 1, pending := s.counts.pending - 1),
      workers := s.workers[w := Idle]))
  }

  /** The tail of an attempt that neither succeeded nor was fatal: give up or retry. */
  function Decide(s: State, w: nat, task: Task, v: Verdict, status: Option<int>, delay: real): State
    requires w < |s.workers|
  {
    if task.attempt >= v.cap then
      EmitError(s, w, task, if v.kind == Throttled || v.kind == Transient then TransientExhausted else v.kind,
                task.attempt, status)
    else if s.budget.used >= BudgetLimit(s.budget.total) then
      EmitError(s, w, task, TransientExhausted, task.attempt, status)
    else
      s.(budget := s.budget.(used := s.budget.used + 1),
         control := s.control.(controller := s.control.controller.(retries := s.control.controller.retries + 1)),
         workers := s.workers[w := Gate(task.(slept := task.slept + delay), s.now + delay)])
  }

  function StatusOf(reply: Reply): Option<int> {
    if reply.Response? then Some(reply.status) else None
  }

  predicate BreakerFailure(kind: FailureClass) {
    kind == Transient || IsFatal(kind)
  }

  /** The record of a worker's item once a call for it has come back. */
  function Tried(st: Stage, reply: Reply): Task
    requires st.Calling?
  {
    st.task.(trace := st.task.trace + [Classify(reply)])
  }

  /** What every answer does first: one call less in flight, one outcome for the breaker. */
  function Returned(c: Config, s: State, kind: FailureClass): State {
    s.(counts := s.counts.(inFlight := s.counts.inFlight - 1),
       control := s.control.(breaker := Record(c.breaker, s.control.breaker, BreakerFailure(kind), s.now)))
  }

  function Fatal(s: State, w: nat, task: Task, kind: FailureClass, status: Option<int>): State
    requires w < |s.workers|
  {
    EmitError(s.(flags := s.flags.(aborted := true, abortClass := s.flags.abortClass + [kind])),
              w, task, kind, task.attempt, status)
  }

  function SlowDown(c: Config, s: State): State {
    var t := OnThrottle(c.controller, s.control.controller, s.control.bucket, s.now);
    s.(control := s.control.(controller := t.controller, bucket := t.bucket))
  }

  function OnAnswer(c: Config, s: State, w: nat, reply: Reply, pause: real, delay: real): State
    requires w < |s.workers| && s.workers[w].Calling?
  {
    var v, status, task := Classify(reply), StatusOf(reply), Tried(s.workers[w], reply);
    var s1 := Returned(c, s, v.kind);
    if v.kind == Success then Succeed(c, s1, w, task, reply)
    else if IsFatal(v.kind) then Fatal(s1, w, task, v.kind, status)
    else if v.kind == Throttled then
      var s2 := SlowDown(c, s1);
      if reply.Response? && reply.resetEpoch > 0.0 then
        s2.(workers := s.workers[w := Pausing(task, v, status, s.now + pause)])
      else Decide(s2, w, task, v, status, delay)
    else Decide(s1, w, task, v, status, delay)
  }

  function OnResume(s: State, w: nat, delay: real): State
    requires w < |s.workers| && s.workers[w].Pausing?
  {
    Decide(s, w, s.workers[w].task, s.workers[w].verdict, s.workers[w].status, delay)
  }

  /** One turn of the ingest loop up to its `queue.put`. A row that arrives after a cancel or
      an abort is dropped unread. */
  function OnPull(c: Config, s: State): State {
    if s.next >= |c.rows| then s.(ingest := Closing(0))
    else if s.flags.cancelled || s.flags.aborted then s.(next := s.next + 1, ingest := Closing(0))
    else
      var idx := s.counts.ingested;
      s.(next := s.next + 1,
         counts := s.counts.(ingested := idx + 1, pending := s.counts.pending + 1),
         budget := s.budget.(total := idx + 1),
         ingest := Putting(if c.rows[s.next].Prompt? then Item(idx) else Broken(idx)))
  }

  function OnPut(c: Config, s: State): State
    requires s.ingest.Putting?
  {
    s.(queue := s.queue + [s.ingest.entry],
       ingest := if c.maxItems.Some? && s.counts.ingested >= c.maxItems.value then Closing(0) else Reading)
  }

  function OnClose(s: State): State
    requires s.ingest.Closing?
  {
    s.(queue := s.queue + [Shutdown], ingest := Closing(s.ingest.sent + 1))
  }

  function Act(c: Config, s: State, e: Event): State
    requires Enabled(c, s.(now := e.at), e)
  {
    match e
    case Pull(_) => OnPull(c, s)
    case Put(_) => OnPut(c, s)
    case Close(_) => OnClose(s)
    case Join(_) => s.(ingest := Finished)
    case Cancel(_) => s.(flags := s.flags.(cancelled := true))
    case Get(w, _) => OnGet(s, w)
    case Pass(w, _) => OnPass(c, s, w)
    case Token(w, _) => OnToken(s, w)
    case Answer(w, _, reply, pause, delay) => OnAnswer(c, s, w, reply, pause, delay)
    case Resume(w, _, delay) => OnResume(s, w, delay)
  }

  function Step(c: Config, s: State, e: Event): State
    requires Enabled(c, s, e)
  {
    Act(c, s.(now := e.at), e)
  }

  // ---------------------------------------------------------------- runs

  predicate Feasible(c: Config, s: State, es: seq<Event>)
    decreases |es|, 0
  {
    es != [] ==> Feasible(c, s, Front(es)) && Enabled(c, Exec(c, s, Front(es)), Last(es))
  }

  function Exec(c: Config, s: State, es: seq<Event>): State
    requires Feasible(c, s, es)
    decreases |es|, 1
  {
    if es == [] then s else Step(c, Exec(c, s, Front(es)), Last(es))
  }

  datatype Status = SUCCEEDED | PARTIAL | FAILED | CANCELLED

  function FinalStatus(s: State): Status {
    if s.flags.cancelled then CANCELLED
    else if s.flags.aborted then FAILED
    else if s.counts.ingested == 0 then SUCCEEDED
    else if s.counts.failed == 0 then SUCCEEDED
    else if s.counts.succeeded == 0 then FAILED
    else PARTIAL
  }
}
