// A whole job, seen by its controller: the bounds on the rate hold in every run of the job.

module JobRate {
  import opened Models
  import opened Retry
  import opened RateLimit
  import opened Job
  import opened JobTermination

  /** What a step tells the controller or takes from its bucket. */
  function AsSignal(e: Event): Option<Signal> {
    match e
    case Token(_, at) => Some(Took(at))
    case Answer(_, at, reply, _, _) =>
      var kind := Classify(reply).kind;
      if kind == Success then Some(Succeeded(at)) else if kind == Throttled then Some(Throttled429(at)) else None
    case _ => None
  }

  function Signals(es: seq<Event>): seq<Signal> {
    if es == [] then []
    else
      match AsSignal(Last(es))
      case None => Signals(Front(es))
      case Some(x) => Signals(Front(es)) + [x]
  }

  /** The controller and the bucket, but for the retry counter, which no rate depends on. */
  function Tuning(s: State): Tuned { Tuned(s.control.controller.(retries := 0), s.control.bucket) }

  lemma DecideTuning(s: State, w: nat, task: Task, v: Verdict, status: Option<int>, delay: real)
    requires w < |s.workers|
    ensures Tuning(Decide(s, w, task, v, status, delay)) == Tuning(s)
  {
    hide Bump, BudgetLimit;
  }

  lemma SuccessTuning(c: Config, k: Controller, b: Bucket, t: real)
    ensures var p, q := OnSuccess(c.controller, k, b, t), OnSuccess(c.controller, k.(retries := 0), b, t);
            q == Tuned(p.controller.(retries := 0), p.bucket)
  {
    hide SetRate;
  }

  lemma ThrottleTuning(c: Config, k: Controller, b: Bucket, t: real)
    ensures var p, q := OnThrottle(c.controller, k, b, t), OnThrottle(c.controller, k.(retries := 0), b, t);
            q == Tuned(p.controller.(retries := 0), p.bucket)
  {
    hide SetRate, Mul;
  }

  lemma AnswerTuning(c: Config, s: State, e: Event)
    requires e.Answer? && e.at == s.now && Enabled(c, s, e)
    ensures Tuning(Act(c, s, e))
      == if AsSignal(e).Some? then StepTuned(c.controller, Tuning(s), AsSignal(e).value) else Tuning(s)
  {
    hide Bump, Record, SpendGuardTrips, Classify, DelayOk, Decide, OnSuccess, OnThrottle, Tried;
    var s1 := Returned(c, s, Classify(e.reply).kind);
    var task, v, status := Tried(s.workers[e.w], e.reply), Classify(e.reply), StatusOf(e.reply);
    DecideTuning(s1, e.w, task, v, status, e.delay);
    DecideTuning(SlowDown(c, s1), e.w, task, v, status, e.delay);
    SuccessTuning(c, s.control.controller, s.control.bucket, s.now);
    ThrottleTuning(c, s.control.controller, s.control.bucket, s.now);
  }

  lemma StepTuning(c: Config, s: State, e: Event)
    requires Enabled(c, s, e)
    ensures Tuning(Step(c, s, e))
      == if AsSignal(e).Some? then StepTuned(c.controller, Tuning(s), AsSignal(e).value) else Tuning(s)
  {
    hide Bump, Allow, TryTake, Classify, DelayOk, OnAnswer, Decide, BudgetLimit, OnSuccess, OnThrottle;
    match e
    case Answer(_, _, _, _, _) => AnswerTuning(c, s.(now := e.at), e);
    case Resume(w, at, delay) =>
      DecideTuning(s.(now := at), w, s.workers[w].task, s.workers[w].verdict, s.workers[w].status, delay);
    case _ =>
  }

  lemma SignalsGrow(es: seq<Event>)
    requires es != []
    ensures var f, x := Front(es), AsSignal(Last(es));
      && Signals(es) == (if x.Some? then Signals(f) + [x.value] else Signals(f))
      && (x.Some? ==> x.value.at == Last(es).at)
  {
    hide Classify;
  }

  lemma SignalsNext(ctl: ControllerConfig, start: Tuned, t0: real, xs: seq<Signal>, x: Signal)
    ensures RunTuned(ctl, start, xs + [x]) == StepTuned(ctl, RunTuned(ctl, start, xs), x)
    ensures InOrder(t0, xs) && x.at >= (if xs == [] then t0 else Last(xs).at) ==> InOrder(t0, xs + [x])
    ensures Last(xs + [x]) == x
  {
    hide StepTuned;
    assert Front(xs + [x]) == xs;
  }

  lemma NoSignals(ctl: ControllerConfig, start: Tuned, t0: real)
    ensures Signals([]) == [] && RunTuned(ctl, start, []) == start && InOrder(t0, [])
  {
  }

  /** Between any two states of a job, controller and bucket move as in a run of the controller on
      the signals in between, which come in the order of the clock. */
  lemma {:induction false} SignalsMatch(c: Config, s: State, es: seq<Event>)
    requires Feasible(c, s, es)
    ensures var s', signals := Exec(c, s, es), Signals(es);
      && Tuning(s') == RunTuned(c.controller, Tuning(s), signals)
      && InOrder(s.now, signals) && s.now <= s'.now
      && (signals != [] ==> Last(signals).at <= s'.now)
  {
    hide Step, StepTuned, Classify, Tuning, AsSignal, Signals, RunTuned, InOrder;
    if es == [] {
      NoSignals(c.controller, Tuning(s), s.now);
    } else {
      var f, e := Front(es), Last(es);
      SignalsMatch(c, s, f);
      StepTuning(c, Exec(c, s, f), e);
      StepNow(c, Exec(c, s, f), e);
      SignalsGrow(es);
      if AsSignal(e).Some? { SignalsNext(c.controller, Tuning(s), s.now, Signals(f), AsSignal(e).value); }
    }
  }

  /** From s to s' the rate has stayed in its range and lost at most one factor per started
      cooldown. */
  predicate NotCollapsed(c: Config, s: State, s': State)
    requires 0.0 < c.controller.cooldown
  {
    && c.controller.minRate <= s.control.bucket.rate <= c.controller.maxRate
    && c.controller.minRate <= s'.control.bucket.rate <= c.controller.maxRate
    && var cooldowns := (s'.now - s.now) / c.controller.cooldown;
    && 0.0 <= cooldowns
    && s'.control.bucket.rate >= Mul(s.control.bucket.rate, Pow(c.controller.factor, cooldowns.Floor + 1))
  }

  lemma RunNoCollapse(c: Config, s: State, es: seq<Event>)
    requires ValidController(c.controller) && Feasible(c, s, es)
    requires c.controller.minRate <= s.control.bucket.rate <= c.controller.maxRate
    ensures NotCollapsed(c, s, Exec(c, s, es))
  {
    hide Exec, Feasible, RunTuned, Mul, Pow, InOrder, Signals;
    SignalsMatch(c, s, es);
    NoCollapse(c.controller, Tuning(s), Signals(es), s.now, Exec(c, s, es).now);
  }

  /** No collapse, in every run of a job, cut in two anywhere: whatever the upstream answers and
      however many of the answers are 429s, the rate stays in its range, and since the cut it has
      lost at most one factor per started cooldown. */
  lemma JobNoCollapse(c: Config, before: seq<Event>, after: seq<Event>)
    requires ValidConfig(c) && Feasible(c, Init(c), before) && Feasible(c, Exec(c, Init(c), before), after)
    requires ValidController(c.controller) && c.controller.minRate <= c.bucket.rate <= c.controller.maxRate
    ensures var s := Exec(c, Init(c), before);
            NotCollapsed(c, s, Exec(c, s, after))
  {
    hide Exec, Feasible, Mul, Pow;
    RunNoCollapse(c, Init(c), before);
    RunNoCollapse(c, Exec(c, Init(c), before), after);
  }

  // ---------------------------------------------------------------- which 429s slow a job down

  /** The times of the 429 answers of a run. */
  function Answers429(es: seq<Event>): seq<real> {
    if es == [] then []
    else if Last(es).Answer? && Last(es).reply.Response? && Last(es).reply.status == 429 then
      Answers429(Front(es)) + [Last(es).at]
    else Answers429(Front(es))
  }

  lemma {:induction false} ThrottlesAre429s(es: seq<Event>)
    ensures ThrottleTimes(Signals(es)) == Answers429(es)
  {
    if es == [] {
    } else {
      hide Signals;
      ThrottlesAre429s(Front(es));
      SignalsGrow(es);
      var x, xs := AsSignal(Last(es)), Signals(Front(es));
      if x.Some? { assert Front(xs + [x.value]) == xs && Last(xs + [x.value]) == x.value; }
    }
  }

  /** What exactly a 429 does to the rate of a job: it multiplies it by the factor, down to the
      minimum, if it is the first of the run or comes a cooldown or more after the last 429 that
      did; else it leaves the rate as it is. */
  lemma JobLowersExactly(c: Config, es: seq<Event>, e: Event)
    requires ValidConfig(c) && ValidController(c.controller) && Feasible(c, Init(c), es)
    requires Enabled(c, Exec(c, Init(c), es), e) && e.Answer? && e.reply.Response? && e.reply.status == 429
    ensures var s := Exec(c, Init(c), es);
      var u, rate := LastLowering(c.controller.cooldown, None, Answers429(es)), s.control.bucket.rate;
      Step(c, s, e).control.bucket.rate
        == if u.None? || e.at - u.value >= c.controller.cooldown
           then MaxReal(c.controller.minRate, Mul(rate, c.controller.factor)) else rate
  {
    hide Exec, Feasible, Enabled, Step, RunTuned, Mul, Signals, LastLowering, StepTuned, Classify, MaxReal;
    var s := Exec(c, Init(c), es);
    SignalsMatch(c, Init(c), es);
    ThrottlesAre429s(es);
    LowersExactly(c.controller, Tuning(Init(c)), Signals(es), e.at);
    RunTunedNext(c.controller, Tuning(Init(c)), Signals(es), Throttled429(e.at));
    StepTuning(c, s, e);
  }

  lemma {:induction false} LoweringIsOne(cooldown: real, ts: seq<real>)
    ensures var u := LastLowering(cooldown, None, ts); u.Some? ==> exists i :: 0 <= i < |ts| && ts[i] == u.value
  {
    if ts == [] {
    } else {
      LoweringIsOne(cooldown, Front(ts));
      var u := LastLowering(cooldown, None, Front(ts));
      if u.Some? {
        var i :| 0 <= i < |Front(ts)| && Front(ts)[i] == u.value;
        assert ts[i] == u.value;
      }
      assert ts[|ts| - 1] == Last(ts);
    }
  }

  /** So a 429 lowers the rate if no other came within the cooldown before it. */
  lemma QuietAnswerLowers(c: Config, es: seq<Event>, e: Event)
    requires ValidConfig(c) && ValidController(c.controller) && Feasible(c, Init(c), es)
    requires Enabled(c, Exec(c, Init(c), es), e) && e.Answer? && e.reply.Response? && e.reply.status == 429
    requires forall i :: 0 <= i < |Answers429(es)| ==> e.at - Answers429(es)[i] >= c.controller.cooldown
    ensures var s := Exec(c, Init(c), es);
      Step(c, s, e).control.bucket.rate
        == MaxReal(c.controller.minRate, Mul(s.control.bucket.rate, c.controller.factor))
  {
    hide Exec, Feasible, Enabled, Step, Mul, MaxReal;
    JobLowersExactly(c, es, e);
    LoweringIsOne(c.controller.cooldown, Answers429(es));
  }
}
