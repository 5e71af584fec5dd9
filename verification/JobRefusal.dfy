// Exactly when the upstream's quota can refuse a job: the runs that show the pacing condition of
// `JobPacing` to be necessary as well as sufficient.

module JobRefusal {
  import opened Models
  import opened Retry
  import opened RateLimit
  import opened Quota
  import opened Pacing
  import opened Job
  import opened JobLedger
  import opened JobPacing
  import opened JobDriver
  import opened JobOverspend

  const BAD_REQUEST := Response(400, false, 0, 0, 0.0)
  const FREE_ANSWER := Response(200, false, 0, 0, 0.0)

  /** A call that is out is answered with a 400: one error row, and no change of the rate. */
  lemma RejectCall(c: Config, s: State, w: nat)
    requires Smooth(c) && w < |s.workers| && s.workers[w].Calling? && NoFailures(s.control.breaker)
    requires s.workers[w].task.attempt == 1
    ensures var e := AnswerNow(s, w, BAD_REQUEST);
      && Enabled(c, s, e)
      && var s' := Step(c, s, e);
         && s'.ingest == s.ingest && s'.queue == s.queue && s'.next == s.next && s'.now == s.now
         && s'.starts == s.starts && s'.workers == s.workers[w := Idle] && s'.flags == s.flags
         && s'.counts.ingested == s.counts.ingested && s'.control.controller == s.control.controller
         && s'.control.bucket == s.control.bucket && NoFailures(s'.control.breaker)
  {
    hide NoFailures, Record, Bump, BudgetLimit, BackoffCeiling;
    StillNoFailures(c.breaker, s.control.breaker, s.now);
  }

  /** A job that has so far started its calls one by one, the last with the bucket b. */
  ghost predicate Steady(c: Config, s: State, served: nat, b: Bucket) {
    && Ready(c, s) && (forall w :: 0 <= w < |s.workers| ==> s.workers[w] == Idle)
    && s.counts.ingested == served && s.control.bucket == b
  }

  lemma CallAt(c: Config, es: seq<Event>, served: nat, b: Bucket, t: real) returns (es': seq<Event>)
    requires Smooth(c) && Feasible(c, Init(c), es) && Steady(c, Exec(c, Init(c), es), served, b)
    requires AllPrompts(c.rows, served + 1) && Exec(c, Init(c), es).now <= t && TryTake(b, t).1.Granted?
    ensures Feasible(c, Init(c), es + es') && Steady(c, Exec(c, Init(c), es + es'), served + 1, TryTake(b, t).0)
    ensures Exec(c, Init(c), es + es').now == t
    ensures Exec(c, Init(c), es + es').starts == Exec(c, Init(c), es).starts + [t]
  {
    hide Exec, Feasible, TryTake, Failures, Step;
    var s := Exec(c, Init(c), es);
    TryTakeValid(b, t);
    TakenAt(b, t);
    StartCall(c, s, 0, t);
    var s1 := Started(s, 0, t);
    RejectCall(c, s1, 0);
    ExecNext(c, s, StartEvents(s, 0, t), AnswerNow(s1, 0, BAD_REQUEST));
    es' := StartEvents(s, 0, t) + [AnswerNow(s1, 0, BAD_REQUEST)];
    ExecAppend(c, Init(c), es, es');
  }

  // ---------------------------------------------------------------- a greedy job

  /** From a full bucket at time t0, the k-th call starts at the first moment it can. */
  function GreedyStarts(cap: real, m: real, t0: real, k: nat): (ts: seq<real>)
    requires 0.0 < m
    ensures |ts| == k
  {
    if k == 0 then [] else GreedyStarts(cap, m, t0, k - 1) + [t0 + GreedyTime(cap, m, k)]
  }

  lemma {:induction false} GreedyStartsWithin(cap: real, m: real, t0: real, k: nat, window: real)
    requires 0.0 < m && (k > 0 ==> GreedyTime(cap, m, k) <= window)
    ensures forall i :: 0 <= i < k ==> t0 <= GreedyStarts(cap, m, t0, k)[i] <= t0 + window
    decreases k
  {
    if k == 0 {
    } else {
      hide GreedyTime;
      GreedyTimeSign(cap, m, k);
      if k > 1 { GreedyTimeGrows(cap, m, k - 1); }
      GreedyStartsWithin(cap, m, t0, k - 1, window);
    }
  }

  lemma FirstGreedyTake(b: Bucket, t0: real)
    requires ValidBucket(b) && Refill(b, t0).tokens == b.capacity
    ensures TryTake(b, t0) == (b.(tokens := b.capacity - 1.0, last := t0), Granted)
  {
    hide Mul;
  }

  lemma NextGreedyTake(b: Bucket, cap: real, m: real, t0: real, k: nat)
    requires 1.0 <= cap && 0.0 < m && k >= 1
    requires b == Bucket(m, cap, MaxReal(cap - k as real, 0.0), t0 + GreedyTime(cap, m, k))
    ensures b.last <= t0 + GreedyTime(cap, m, k + 1)
    ensures TryTake(b, t0 + GreedyTime(cap, m, k + 1))
      == (Bucket(m, cap, MaxReal(cap - (k + 1) as real, 0.0), t0 + GreedyTime(cap, m, k + 1)), Granted)
  {
    hide Mul, GreedyTime, TryTake;
    var t := t0 + GreedyTime(cap, m, k + 1);
    GreedyTimeMeans(cap, m, k);
    GreedyTimeMeans(cap, m, k + 1);
    GreedyTimeGrows(cap, m, k);
    MulAdd(t0, GreedyTime(cap, m, k), m);
    MulAdd(t0, GreedyTime(cap, m, k + 1), m);
    TakeAt(b, t);
  }

  lemma FirstGreedyTime(cap: real, m: real)
    requires 1.0 <= cap && 0.0 < m
    ensures GreedyTime(cap, m, 1) == 0.0
  {
    hide Mul;
    MulDiv(1.0 - cap, m);
    MulUnits(m);
    if (1.0 - cap) / m > 0.0 { MulStrict(0.0, (1.0 - cap) / m, m); }
  }

  lemma {:induction false} GreedyJob(c: Config, es: seq<Event>, served: nat, b: Bucket, t0: real, k: nat)
    returns (es': seq<Event>)
    requires Smooth(c) && Feasible(c, Init(c), es) && Steady(c, Exec(c, Init(c), es), served, b)
    requires AllPrompts(c.rows, served + k) && Exec(c, Init(c), es).now <= t0
    requires ValidBucket(b) && Refill(b, t0).tokens == b.capacity
    ensures Feasible(c, Init(c), es + es')
    ensures var s := Exec(c, Init(c), es + es');
      && s.starts == Exec(c, Init(c), es).starts + GreedyStarts(b.capacity, b.rate, t0, k)
      && (k == 0 ==> es' == [])
      && (k > 0 ==> s.now == t0 + GreedyTime(b.capacity, b.rate, k) && Steady(c, s, served + k,
            Bucket(b.rate, b.capacity, MaxReal(b.capacity - k as real, 0.0), t0 + GreedyTime(b.capacity, b.rate, k))))
    decreases k
  {
    hide Exec, Feasible, TryTake, GreedyTime, Refill, Ready;
    var cap, m := b.capacity, b.rate;
    if k == 0 {
      es' := [];
      assert es + es' == es;
    } else if k == 1 {
      es' := [];
      assert es + es' == es;
      FirstGreedyTake(b, t0);
      FirstGreedyTime(cap, m);
      es' := CallAt(c, es, served, b, t0);
      assert GreedyStarts(cap, m, t0, 1) == [t0 + GreedyTime(cap, m, 1)];
    } else {
      es' := GreedyJob(c, es, served, b, t0, k - 1);
      var last := t0 + GreedyTime(cap, m, k - 1);
      var b' := Bucket(m, cap, MaxReal(cap - (k - 1) as real, 0.0), last);
      NextGreedyTake(b', cap, m, t0, k - 1);
      var more := CallAt(c, es + es', served + (k - 1), b', t0 + GreedyTime(cap, m, k));
      assert es + es' + more == es + (es' + more);
      es' := es' + more;
    }
  }

  // ---------------------------------------------------------------- the refusal

  lemma {:induction false} CountInConcat(a: seq<real>, b: seq<real>, lo: real, hi: real)
    ensures CountIn(a + b, lo, hi) == CountIn(a, lo, hi) + CountIn(b, lo, hi)
    decreases |b|
  {
    if b == [] {
      assert a + b == a;
    } else {
      assert Front(a + b) == a + Front(b) && Last(a + b) == Last(b);
      CountInConcat(a, Front(b), lo, hi);
    }
  }

  /** The quota cannot accept more than `ceiling` calls that fall in one window. */
  lemma TooManyStarts(
    c: Config, es: seq<Event>, before: seq<real>, burst: seq<real>, t0: real, window: real, ceiling: nat)
    requires ValidConfig(c) && Feasible(c, Init(c), es) && Exec(c, Init(c), es).starts == before + burst
    requires |burst| > ceiling && forall i :: 0 <= i < |burst| ==> t0 <= burst[i] <= t0 + window
    ensures RunCalls(window, ceiling, Exec(c, Init(c), es).starts).accepted != Exec(c, Init(c), es).starts
  {
    hide Exec, Feasible, RunCalls, CountIn;
    var starts := Exec(c, Init(c), es).starts;
    StartsSorted(c, es);
    NoWindowOverCeiling(window, ceiling, starts, t0);
    CountInConcat(before, burst, t0, t0 + window);
    CountAll(burst, t0, t0 + window);
  }

  /** From a full bucket whose capacity plus supply reaches ceiling + 1, a job can be refused. */
  lemma RefusedFrom(c: Config, es: seq<Event>, served: nat, b: Bucket, t0: real, window: real, ceiling: nat)
    returns (es': seq<Event>)
    requires Smooth(c) && Feasible(c, Init(c), es) && Steady(c, Exec(c, Init(c), es), served, b)
    requires AllPrompts(c.rows, served + ceiling + 1) && Exec(c, Init(c), es).now <= t0
    requires ValidBucket(b) && Refill(b, t0).tokens == b.capacity
    requires 0.0 <= window && b.capacity + Mul(window, b.rate) >= ceiling as real + 1.0
    ensures Feasible(c, Init(c), es + es')
    ensures var starts := Exec(c, Init(c), es + es').starts;
            RunCalls(window, ceiling, starts).accepted != starts
  {
    hide Exec, Feasible, GreedyTime, Refill, RunCalls, Mul, Steady;
    var n := ceiling + 1;
    es' := GreedyJob(c, es, served, b, t0, n);
    GreedyFitsWindow(b.capacity, b.rate, window, n);
    GreedyStartsWithin(b.capacity, b.rate, t0, n, window);
    var burst := GreedyStarts(b.capacity, b.rate, t0, n);
    TooManyStarts(c, es + es', Exec(c, Init(c), es).starts, burst, t0, window, ceiling);
  }

  lemma SteadyAtFirst(c: Config)
    requires Smooth(c)
    ensures Feasible(c, Init(c), []) && Exec(c, Init(c), []).now == c.bucket.last
    ensures Steady(c, Exec(c, Init(c), []), 0, c.bucket)
  {
    AllIdle(Init(c).workers);
  }

  lemma FullNow(b: Bucket)
    requires ValidBucket(b) && b.tokens == b.capacity
    ensures Refill(b, b.last).tokens == b.capacity
  {
  }

  /** A job that the program wires for exactly the upstream's own limit of `rpm` requests in 60
      seconds has a run that the upstream does not accept, whatever the limit. */
  lemma WiredJobCanBeRefused(rpm: nat) returns (c: Config, es: seq<Event>)
    requires rpm >= 1
    ensures ValidConfig(c) && c.bucket == JobBucket(rpm, 0.0) && c.controller == JobController(rpm)
    ensures Feasible(c, Init(c), es)
    ensures var starts := Exec(c, Init(c), es).starts; RunCalls(60.0, rpm, starts).accepted != starts
  {
    hide Exec, Feasible, RunCalls, Steady;
    c := PlainJob(1, seq(rpm + 1, _ => Prompt), 1.0, 0.0, 0.0)
      .(bucket := JobBucket(rpm, 0.0), controller := JobController(rpm));
    SteadyAtFirst(c);
    FullNow(c.bucket);
    var more := RefusedFrom(c, [], 0, c.bucket, 0.0, 60.0, rpm);
    es := [] + more;
  }

  // ---------------------------------------------------------------- up to the top rate

  /** The rate after n successes in a row. */
  function RateAfter(c: Config, n: nat): real
    requires 1 <= c.controller.streak
  {
    MinReal(c.controller.maxRate, c.bucket.rate + Mul((n / c.controller.streak) as real, c.controller.step))
  }

  /** The job has had n successes in a row, and the rate is what they have made of it. */
  ghost predicate Climbed(c: Config, s: State, n: nat) {
    && 1 <= c.controller.streak && Served(c, s, n, 0, 0.0)
    && s.control.controller.successes == n % c.controller.streak
    && s.control.bucket.capacity == c.bucket.capacity
    && s.control.bucket.rate == RateAfter(c, n)
  }

  predicate CanClimb(c: Config) {
    && Smooth(c) && ValidController(c.controller) && 1 <= c.controller.streak
    && c.controller.minRate <= c.bucket.rate <= c.controller.maxRate
    && 0.0 < c.spendCap && c.inputPrice == 0.0 && c.outputPrice == 0.0
  }

  lemma FreeOfCharge(c: Config)
    requires c.inputPrice == 0.0 && c.outputPrice == 0.0
    ensures forall i, o :: Cost(c, i, o) == 0.0
  {
  }

  lemma SameCapacity(b: Bucket, t: real)
    ensures Refill(b, t).capacity == b.capacity && TryTake(b, t).0.capacity == b.capacity
  {
  }

  lemma ClimbStep(c: Config, k: Controller, b: Bucket, t: real, n: nat)
    requires CanClimb(c) && ValidBucket(b) && k.successes == n % c.controller.streak
    requires b.rate == RateAfter(c, n)
    ensures var q := OnSuccess(c.controller, k, b, t);
      && q.controller.successes == (n + 1) % c.controller.streak && q.bucket.capacity == b.capacity
      && q.bucket.rate == RateAfter(c, n + 1)
  {
    hide Mul, Refill;
    IncreaseStep(c.controller, Tuned(k, b), Succeeded(t), c.bucket.rate, n);
    SameCapacity(b, t);
  }

  lemma StartOfClimb(c: Config)
    requires CanClimb(c)
    ensures var k := Exec(c, Init(c), []).control;
      && k.controller.successes == 0 % c.controller.streak && k.bucket == c.bucket
      && RateAfter(c, 0) == c.bucket.rate
  {
    DivMod(0, c.controller.streak, 0, 0);
    MulUnits(c.controller.step);
  }

  lemma {:induction false} Climb(c: Config, n: nat) returns (es: seq<Event>)
    requires CanClimb(c) && AllPrompts(c.rows, n)
    ensures Feasible(c, Init(c), es) && Climbed(c, Exec(c, Init(c), es), n)
    decreases n
  {
    hide Exec, Feasible, Cost, Mul, TryTake, OnSuccess, SpendGuardTrips, NoFailures;
    FreeOfCharge(c);
    if n == 0 {
      es := [];
      ServedAtFirst(c);
      StartOfClimb(c);
    } else {
      es := Climb(c, n - 1);
      var s := Exec(c, Init(c), es);
      var more := ServeRow(c, s, 0, FREE_ANSWER);
      var s' := Exec(c, s, more);
      GuardQuiet(c, s'.counts, s'.books);
      var b := TryTake(s.control.bucket, s'.now).0;
      TryTakeValid(s.control.bucket, s'.now);
      SameCapacity(s.control.bucket, s'.now);
      ClimbStep(c, s.control.controller, b, s'.now, n - 1);
      ExecAppend(c, Init(c), es, more);
      es := es + more;
    }
  }

  lemma FullLater(b: Bucket) returns (wait: real)
    requires ValidBucket(b)
    ensures 0.0 <= wait && forall t :: t >= b.last + wait ==> Refill(b, t).tokens == b.capacity
  {
    hide Mul;
    wait := b.capacity / b.rate;
    MulDiv(b.capacity, b.rate);
    MulUnits(b.rate);
    if wait < 0.0 { MulStrict(wait, 0.0, b.rate); }
    forall t | t >= b.last + wait ensures Refill(b, t).tokens == b.capacity {
      MulMono(wait, t - b.last, b.rate);
    }
  }

  /** Enough full streaks take the rate to its maximum. */
  lemma TopRate(ctl: ControllerConfig, rate: real) returns (n: nat)
    requires ValidController(ctl) && 1 <= ctl.streak && (0.0 < ctl.step || rate >= ctl.maxRate)
    ensures MinReal(ctl.maxRate, rate + Mul((n / ctl.streak) as real, ctl.step)) == ctl.maxRate
  {
    hide Mul;
    MulUnits(ctl.step);
    if rate >= ctl.maxRate {
      n := 0;
      DivMod(0, ctl.streak, 0, 0);
    } else {
      var k := UpTo(ctl.maxRate - rate, ctl.step);
      Multiples(k, ctl.streak);
      n := k * ctl.streak;
      DivMod(n, ctl.streak, k, 0);
    }
  }

  predicate SameEngine(c: Config, b: Bucket, ctl: ControllerConfig) {
    ValidConfig(c) && c.bucket == b && c.controller == ctl
  }

  /** The upstream accepts every call of the run. */
  ghost predicate Accepted(c: Config, es: seq<Event>, window: real, ceiling: nat)
    requires Feasible(c, Init(c), es)
  {
    RunCalls(window, ceiling, Exec(c, Init(c), es).starts).accepted == Exec(c, Init(c), es).starts
  }

  lemma SomeJobIsRefused(b: Bucket, ctl: ControllerConfig, window: real, ceiling: nat)
    returns (c: Config, es: seq<Event>)
    requires ValidBucket(b) && ValidController(ctl) && ctl.minRate <= b.rate <= ctl.maxRate && 1 <= ctl.streak
    requires (0.0 < ctl.step || b.rate == ctl.maxRate) && 0.0 <= window
    requires b.capacity + Mul(window, ctl.maxRate) >= ceiling as real + 1.0
    ensures SameEngine(c, b, ctl) && Feasible(c, Init(c), es) && !Accepted(c, es, window, ceiling)
  {
    hide Exec, Feasible, RunCalls, Mul, Refill;
    var n := TopRate(ctl, b.rate);
    c := PlainJob(1, seq(n + ceiling + 1, _ => Prompt), 1.0, 0.0, 0.0).(bucket := b, controller := ctl);
    var climb := Climb(c, n);
    var s := Exec(c, Init(c), climb);
    var wait := FullLater(s.control.bucket);
    var greedy := RefusedFrom(c, climb, n, s.control.bucket, s.now + wait, window, ceiling);
    es := climb + greedy;
  }

  /** Exactly when a job is safe from the quota: with this bucket and this controller, every run of
      every job has all its calls accepted by an upstream that enforces `ceiling` calls per
      window, if and only if capacity + maxRate * window < ceiling + 1. */
  lemma JobPacingExact(b: Bucket, ctl: ControllerConfig, window: real, ceiling: nat)
    requires ValidBucket(b) && ValidController(ctl) && ctl.minRate <= b.rate <= ctl.maxRate && 1 <= ctl.streak
    requires (0.0 < ctl.step || b.rate == ctl.maxRate) && 0.0 <= window
    ensures b.capacity + Mul(window, ctl.maxRate) < ceiling as real + 1.0
      <==> forall c, es :: SameEngine(c, b, ctl) && Feasible(c, Init(c), es) ==> Accepted(c, es, window, ceiling)
  {
    hide Exec, Feasible, RunCalls, Mul, ValidBucket, ValidController;
    if b.capacity + Mul(window, ctl.maxRate) < ceiling as real + 1.0 {
      forall c, es | SameEngine(c, b, ctl) && Feasible(c, Init(c), es) ensures Accepted(c, es, window, ceiling) {
        JobNeverOverQuota(c, es, window, ceiling);
      }
    } else {
      var c, es := SomeJobIsRefused(b, ctl, window, ceiling);
    }
  }
}
