// What every attempt of every item looks like, and who owns a half-open circuit breaker.

module JobAttempts {
  import opened Models
  import opened Retry
  import opened RateLimit
  import opened Job
  import opened JobLedger

  // ---------------------------------------------------------------- attempt traces

  /** The most that the back-off sleeps after tries 1, ..., n can add up to. */
  function BackoffSum(c: Config, n: nat): real {
    if n == 0 then 0.0
    else BackoffSum(c, n - 1) + MaxReal(0.0, BackoffCeiling(c.retryBase, c.retryCap, n))
  }

  lemma {:induction false} BackoffSumGrows(c: Config, m: nat, n: nat)
    requires m <= n
    ensures 0.0 <= BackoffSum(c, m) <= BackoffSum(c, n)
    decreases n
  {
    if n == 0 {
    } else {
      BackoffSumGrows(c, if m < n then m else n - 1, n - 1);
    }
  }

  lemma EnvelopeAtMost(c: Config, n: nat)
    requires 0.0 <= c.retryBase && 0.0 <= c.retryCap
    ensures var most := MaxReal(0.0, BackoffCeiling(c.retryBase, c.retryCap, n));
      most <= c.retryCap && most <= Mul(Pow2(n) as real, c.retryBase)
  {
    Pow2Positive(n);
    MulMono(0.0, Pow2(n) as real, c.retryBase);
  }

  lemma {:induction false} BackoffUpTo(c: Config, n: nat)
    requires 0.0 <= c.retryBase && 0.0 <= c.retryCap
    ensures BackoffSum(c, n) <= Mul(n as real, c.retryCap)
    ensures BackoffSum(c, n) <= Mul((Pow2(n + 1) - 2) as real, c.retryBase)
  {
    if n == 0 {
      assert Pow2(1) == 2;
    } else {
      BackoffUpTo(c, n - 1);
      EnvelopeAtMost(c, n);
      hide Mul, BackoffCeiling;
      assert Pow2(n + 1) == 2 * Pow2(n);
      MulAdd((n - 1) as real, 1.0, c.retryCap);
      MulUnits(c.retryCap);
      MulAdd((Pow2(n) - 2) as real, Pow2(n) as real, c.retryBase);
    }
  }

  /** The seven envelopes in closed form: never more than seven caps, nor 254 times the base. */
  lemma BackoffTotal(c: Config)
    requires 0.0 <= c.retryBase && 0.0 <= c.retryCap
    ensures BackoffSum(c, 7) <= Mul(7.0, c.retryCap) && BackoffSum(c, 7) <= Mul(254.0, c.retryBase)
  {
    BackoffUpTo(c, 7);
    assert Pow2(8) == 256;
  }

  predicate Tabled(v: Verdict) {
    && 1 <= v.cap <= 8 && (v.cap > 5 <==> v.kind == Throttled)
    && (v.cap > 1 <==> v.kind == Throttled || v.kind == Transient)
  }

  /** At most 8 calls, and a call that was not the last was below the cap of its own verdict. */
  predicate WellTried(trace: seq<Verdict>) {
    && |trace| <= 8
    && (forall k :: 0 <= k < |trace| ==> Tabled(trace[k]))
    && (forall k :: 0 <= k < |trace| - 1 ==> k + 1 < trace[k].cap)
  }

  predicate MayRetry(trace: seq<Verdict>) {
    trace != [] ==> |trace| < Last(trace).cap
  }

  predicate StageOk(c: Config, st: Stage) {
    match st
    case Idle | Exited => true
    case Gate(t, _) =>
      && t.attempt == |t.trace| && WellTried(t.trace) && MayRetry(t.trace)
      && 0.0 <= t.slept <= BackoffSum(c, |t.trace|)
    case Acquire(t, _) =>
      && t.attempt == |t.trace| + 1 && WellTried(t.trace) && MayRetry(t.trace)
      && 0.0 <= t.slept <= BackoffSum(c, |t.trace|)
    case Calling(t) =>
      && t.attempt == |t.trace| + 1 && WellTried(t.trace) && MayRetry(t.trace)
      && 0.0 <= t.slept <= BackoffSum(c, |t.trace|)
    case Pausing(t, v, _, _) =>
      && t.attempt == |t.trace| >= 1 && WellTried(t.trace) && Last(t.trace) == v
      && 0.0 <= t.slept <= BackoffSum(c, |t.trace| - 1)
  }

  predicate RowOk(c: Config, row: OutRow) {
    && WellTried(row.task.trace)
    && 0.0 <= row.task.slept <= BackoffSum(c, Min(7, |row.task.trace|))
    && (row.Done? ==> row.task.trace != [] && Last(row.task.trace).kind == Success)
  }

  ghost predicate Traced(c: Config, s: State) {
    && (forall w :: 0 <= w < |s.workers| ==> StageOk(c, s.workers[w]))
    && (forall i :: 0 <= i < |s.books.log| ==> RowOk(c, s.books.log[i]))
  }

  /** The worker's new stage is in order, and so is the row it wrote, if it wrote one. */
  predicate LeavesOk(c: Config, s: State, s': State, w: nat) {
    && w < |s'.workers| && StageOk(c, s'.workers[w])
    && (s'.books.log == s.books.log || (s'.books.log != [] && RowOk(c, Last(s'.books.log))))
  }

  lemma TraceGrows(trace: seq<Verdict>, v: Verdict)
    requires WellTried(trace) && MayRetry(trace) && Tabled(v)
    ensures WellTried(trace + [v])
  {
    if trace != [] { assert Tabled(trace[|trace| - 1]); }
  }

  lemma GateRow(c: Config, t: Task)
    requires WellTried(t.trace) && MayRetry(t.trace) && 0.0 <= t.slept <= BackoffSum(c, |t.trace|)
    ensures 0.0 <= t.slept <= BackoffSum(c, Min(7, |t.trace|))
  {
    if t.trace != [] { assert Tabled(t.trace[|t.trace| - 1]); }
  }

  lemma PassLeavesOk(c: Config, s: State, w: nat)
    requires w < |s.workers| && s.workers[w].Gate? && StageOk(c, s.workers[w])
    ensures LeavesOk(c, s, OnPass(c, s, w), w)
  {
    GateRow(c, s.workers[w].task);
    hide Allow, Bump, WellTried, BackoffSum, MayRetry;
  }

  lemma DecideLeavesOk(c: Config, s: State, w: nat, t: Task, v: Verdict, status: Option<int>, delay: real)
    requires w < |s.workers| && t.attempt == |t.trace| >= 1 && WellTried(t.trace) && Last(t.trace) == v
    requires 0.0 <= t.slept <= BackoffSum(c, |t.trace| - 1) && DelayOk(c, t, delay)
    ensures LeavesOk(c, s, Decide(s, w, t, v, status, delay), w)
  {
    assert Tabled(t.trace[|t.trace| - 1]);
    BackoffSumGrows(c, |t.trace| - 1, Min(7, |t.trace|));
    hide Bump, BudgetLimit, WellTried, BackoffCeiling;
  }

  /** The four ways an answer can go. */
  lemma AnswerCases(c: Config, s: State, w: nat, reply: Reply, pause: real, delay: real)
    requires w < |s.workers| && s.workers[w].Calling?
    ensures var v, status, task := Classify(reply), StatusOf(reply), Tried(s.workers[w], reply);
      var s1, s' := Returned(c, s, v.kind), OnAnswer(c, s, w, reply, pause, delay);
      || (v.kind == Success && reply.Response? && s'.workers == s.workers[w := Idle]
          && s'.books.log == s.books.log + [Done(task, reply.inputTokens, reply.outputTokens)])
      || (IsFatal(v.kind) && s'.workers == s.workers[w := Idle]
          && s'.books.log == s.books.log + [Failed(task, v.kind, task.attempt, status)])
      || (v.kind == Throttled && s'.workers == s.workers[w := Pausing(task, v, status, s.now + pause)]
          && s'.books.log == s.books.log)
      || (v.kind == Throttled && s' == Decide(SlowDown(c, s1), w, task, v, status, delay))
      || (v.kind != Success && !IsFatal(v.kind) && s' == Decide(s1, w, task, v, status, delay))
  {
    hide Classify, Bump, BudgetLimit, Record, SetRate, SpendGuardTrips, DecreaseDue, Decide, Tried;
  }

  lemma AnswerLeavesOk(c: Config, s: State, w: nat, reply: Reply, pause: real, delay: real)
    requires w < |s.workers| && s.workers[w].Calling? && StageOk(c, s.workers[w])
    requires DelayOk(c, s.workers[w].task, delay)
    ensures LeavesOk(c, s, OnAnswer(c, s, w, reply, pause, delay), w)
  {
    var prior, v, task := s.workers[w].task, Classify(reply), Tried(s.workers[w], reply);
    TraceGrows(prior.trace, v);
    assert Last(task.trace) == v && |task.trace| == |prior.trace| + 1;
    BackoffSumGrows(c, |prior.trace|, Min(7, |task.trace|));
    hide Classify, Bump, BudgetLimit, WellTried, BackoffSum, Record, SetRate, SpendGuardTrips, DecreaseDue;
    var s1, status := Returned(c, s, v.kind), StatusOf(reply);
    assert v.kind == Success && reply.Response? ==> RowOk(c, Done(task, reply.inputTokens, reply.outputTokens));
    assert RowOk(c, Failed(task, v.kind, task.attempt, status));
    assert StageOk(c, Pausing(task, v, status, s.now + pause));
    DecideLeavesOk(c, s1, w, task, v, status, delay);
    DecideLeavesOk(c, SlowDown(c, s1), w, task, v, status, delay);
    hide Decide, StageOk, RowOk, Tried, MayRetry, DelayOk;
    assert task == Tried(s.workers[w], reply);
    AnswerCases(c, s, w, reply, pause, delay);
  }

  lemma GetLeavesOk(c: Config, s: State, w: nat)
    requires w < |s.workers| && s.workers[w].Idle? && s.queue != []
    ensures LeavesOk(c, s, OnGet(s, w), w)
  {
    hide Bump;
  }

  lemma TokenLeavesOk(c: Config, s: State, w: nat)
    requires w < |s.workers| && s.workers[w].Acquire? && StageOk(c, s.workers[w])
    ensures LeavesOk(c, s, OnToken(s, w), w)
  {
    hide TryTake, WellTried, BackoffSum, MayRetry;
  }

  lemma ActLeavesOk(c: Config, s: State, e: Event)
    requires e.at == s.now && Enabled(c, s, e) && ByWorker(e) && StageOk(c, s.workers[e.w])
    ensures LeavesOk(c, s, Act(c, s, e), e.w)
  {
    hide OnPass, OnAnswer, TryTake, LeavesOk;
    match e
    case Get(w, _) => GetLeavesOk(c, s, w);
    case Pass(w, _) => PassLeavesOk(c, s, w);
    case Token(w, _) => TokenLeavesOk(c, s, w);
    case Answer(w, _, reply, pause, delay) => AnswerLeavesOk(c, s, w, reply, pause, delay);
    case Resume(w, _, delay) =>
      DecideLeavesOk(c, s, w, s.workers[w].task, s.workers[w].verdict, s.workers[w].status, delay);
  }

  lemma TracedWorked(c: Config, s: State, s': State, w: nat)
    requires Traced(c, s) && Worked(s, s', w) && LeavesOk(c, s, s', w)
    ensures Traced(c, s')
  {
    hide StageOk, RowOk, BudgetLimit, Bump;
    assert s'.workers == s.workers[w := s'.workers[w]];
    if s'.workers[w].Idle? {
      assert s'.books.log == s.books.log + [s'.books.log[|s.books.log|]];
    }
  }

  lemma TracedKept(c: Config, s: State, e: Event)
    requires Traced(c, s) && Sound(s) && Enabled(c, s, e)
    ensures Traced(c, Step(c, s, e))
  {
    var s0 := s.(now := e.at);
    assert Traced(c, s0) && Sound(s0) && Enabled(c, s0, e);
    if ByWorker(e) {
      assert StageOk(c, s0.workers[e.w]);
      hide Traced, Act, Worked, StageOk, LeavesOk;
      ActWorks(c, s0, e);
      ActLeavesOk(c, s0, e);
      TracedWorked(c, s0, Step(c, s, e), e.w);
    } else {
      hide Act, StageOk, RowOk;
      ActFeeds(c, s0, e);
    }
  }

  // ---------------------------------------------------------------- every call belongs to a trace

  function StageCalls(st: Stage): nat {
    if st.Idle? || st.Exited? then 0 else |st.task.trace| + Flying(st)
  }

  function WorkerCalls(ws: seq<Stage>): nat {
    if ws == [] then 0 else StageCalls(ws[0]) + WorkerCalls(ws[1..])
  }

  function RowCalls(log: seq<OutRow>): nat {
    if log == [] then 0 else RowCalls(Front(log)) + |Last(log).task.trace|
  }

  /** Each provider call ever started is one entry of one item's trace, or is still out. */
  ghost predicate CallsTraced(s: State) {
    |s.starts| == RowCalls(s.books.log) + WorkerCalls(s.workers)
  }

  lemma {:induction false} WorkerCallsUpdate(ws: seq<Stage>, w: nat, st: Stage)
    requires w < |ws|
    ensures WorkerCalls(ws[w := st]) + StageCalls(ws[w]) == WorkerCalls(ws) + StageCalls(st)
  {
    if w > 0 {
      assert ws[w := st][1..] == ws[1..][w - 1 := st];
      WorkerCallsUpdate(ws[1..], w - 1, st);
    } else {
      assert ws[w := st][1..] == ws[1..];
    }
  }

  /** The calls a step adds to the worker and the row it may write equal the calls it starts. */
  predicate CallsBalance(s: State, s': State, w: nat)
    requires w < |s.workers| && w < |s'.workers|
  {
    var b := s'.workers[w];
    var written := if b.Idle? && s'.books.log != [] then |Last(s'.books.log).task.trace| else 0;
    StageCalls(b) + written == StageCalls(s.workers[w]) + (if b.Calling? then 1 else 0)
  }

  lemma DecideBalances(s: State, w: nat, task: Task, v: Verdict, status: Option<int>, delay: real)
    requires w < |s.workers|
    ensures var s' := Decide(s, w, task, v, status, delay);
      && |s'.workers| == |s.workers|
      && (if s'.workers[w].Idle? then s'.books.log != [] && Last(s'.books.log).task.trace == task.trace
          else s'.workers[w].Gate? && s'.workers[w].task.trace == task.trace)
  {
    hide Bump, BudgetLimit;
  }

  lemma AnswerBalances(c: Config, s: State, e: Event)
    requires e.Answer? && e.at == s.now && Enabled(c, s, e)
    ensures |Act(c, s, e).workers| == |s.workers| && CallsBalance(s, Act(c, s, e), e.w)
  {
    hide Bump, BudgetLimit, Record, SetRate, SpendGuardTrips, DecreaseDue, Decide, DelayOk;
    var w, v, task := e.w, Classify(e.reply), Tried(s.workers[e.w], e.reply);
    hide Classify;
    var s1 := Returned(c, s, v.kind);
    DecideBalances(s1, w, task, v, StatusOf(e.reply), e.delay);
    DecideBalances(SlowDown(c, s1), w, task, v, StatusOf(e.reply), e.delay);
  }

  lemma ActBalances(c: Config, s: State, e: Event)
    requires e.at == s.now && Enabled(c, s, e) && ByWorker(e)
    ensures |Act(c, s, e).workers| == |s.workers| && CallsBalance(s, Act(c, s, e), e.w)
  {
    hide Bump, BudgetLimit, Allow, TryTake, Record, SetRate, SpendGuardTrips, DecreaseDue, Decide, Classify, DelayOk;
    match e
    case Answer(w, _, reply, _, delay) => AnswerBalances(c, s, e);
    case Resume(w, _, delay) =>
      DecideBalances(s, w, s.workers[w].task, s.workers[w].verdict, s.workers[w].status, delay);
    case _ => hide OnAnswer;
  }

  lemma RowCallsAppend(log: seq<OutRow>, row: OutRow)
    ensures RowCalls(log + [row]) == RowCalls(log) + |row.task.trace|
  {
    assert Front(log + [row]) == log;
  }

  lemma WorkedCalls(s: State, s': State, w: nat)
    requires CallsTraced(s) && Worked(s, s', w) && CallsBalance(s, s', w)
    ensures CallsTraced(s')
  {
    hide RowCalls, WorkerCalls, BudgetLimit, Bump, RowFits;
    WorkerCallsUpdate(s.workers, w, s'.workers[w]);
    if s'.workers[w].Idle? { RowCallsAppend(s.books.log, s'.books.log[|s.books.log|]); }
  }

  lemma FedCalls(c: Config, s: State, s': State)
    requires CallsTraced(s) && Fed(c, s, s')
    ensures CallsTraced(s')
  {
  }

  lemma CallsTracedKept(c: Config, s: State, e: Event)
    requires CallsTraced(s) && Sound(s) && Enabled(c, s, e)
    ensures CallsTraced(Step(c, s, e))
  {
    var s0, s' := s.(now := e.at), Step(c, s, e);
    assert Sound(s0) && Enabled(c, s0, e);
    hide Act, Worked, Fed, CallsBalance;
    if ByWorker(e) {
      ActWorks(c, s0, e);
      ActBalances(c, s0, e);
      WorkedCalls(s0, s', e.w);
    } else {
      ActFeeds(c, s0, e);
      FedCalls(c, s0, s');
    }
  }

  // ---------------------------------------------------------------- the half-open breaker

  /** Whenever the breaker is half-open, the worker whose request made it so is past the gate
      and its call has not come back: the probe is on its way to reporting. */
  ghost predicate Probed(s: State) {
    && (s.control.breaker.state != Closed ==> s.control.breaker.openedAt <= s.now)
    && (s.control.breaker.state == HalfOpen ==>
        s.prober < |s.workers| && (s.workers[s.prober].Acquire? || s.workers[s.prober].Calling?))
  }

  lemma AnswerControl(c: Config, s: State, w: nat, reply: Reply, pause: real, delay: real)
    requires w < |s.workers| && s.workers[w].Calling?
    ensures var s' := OnAnswer(c, s, w, reply, pause, delay);
      s'.prober == s.prober && s'.control.breaker
        == Record(c.breaker, s.control.breaker, BreakerFailure(Classify(reply).kind), s.now)
  {
    hide Bump, BudgetLimit, Record, SetRate, SpendGuardTrips, DecreaseDue, Classify;
  }

  /** How each kind of step moves the breaker. */
  lemma BreakerMoves(c: Config, s: State, e: Event)
    requires e.at == s.now && Enabled(c, s, e) && ByWorker(e)
    ensures var s' := Act(c, s, e);
      var b, b' := s.control.breaker, s'.control.breaker;
      if e.Answer? then
        && s'.prober == s.prober && b'.state != HalfOpen
        && (b'.state == Open ==> b'.openedAt == s.now || (b.state == Open && b'.openedAt == b.openedAt))
      else if b'.state == HalfOpen && b.state != HalfOpen then
        && e.Pass? && s'.prober == e.w && s'.workers[e.w].Acquire?
        && b.state == Open && b'.openedAt == b.openedAt
      else
        s'.prober == s.prober && b'.state == b.state && b'.openedAt == b.openedAt
  {
    hide Bump, BudgetLimit, TryTake, SetRate, SpendGuardTrips, DecreaseDue, DelayOk, Trips;
    match e
    case Answer(w, _, reply, _, delay) =>
      var v := Classify(reply);
      hide Classify;
      AnswerControl(c, s, w, reply, e.pause, delay);
      hide OnAnswer;
    case _ => hide OnAnswer;
  }

  lemma ProbedKept(c: Config, s: State, e: Event)
    requires Probed(s) && Sound(s) && Enabled(c, s, e)
    ensures Probed(Step(c, s, e))
  {
    var s0, s' := s.(now := e.at), Step(c, s, e);
    assert Sound(s0) && Enabled(c, s0, e);
    if ByWorker(e) {
      ActWorks(c, s0, e);
      BreakerMoves(c, s0, e);
      hide Act, NoRow, RowAdded, BudgetLimit, Record, Subject, Sound, FlagsGrow, Retrying;
      assert s'.workers == s.workers[e.w := s'.workers[e.w]];
    } else {
      ActFeeds(c, s0, e);
      hide Act, Sound;
    }
  }
}
