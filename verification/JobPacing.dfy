// A whole job, seen by its token bucket and by the upstream quota: the calls that any run of
// the step machine starts are exactly the grants of one bucket run.

module JobPacing {
  import opened Models
  import opened Retry
  import opened RateLimit
  import opened Quota
  import opened Job
  import opened JobTermination

  /** The bucket events of a run, in order. */
  function BucketTrace(c: Config, s: State, es: seq<Event>): seq<BucketEvent>
    requires Feasible(c, s, es)
  {
    if es == [] then []
    else
      var trace := BucketTrace(c, s, Front(es));
      match AsBucketEvent(c, Exec(c, s, Front(es)), Last(es))
      case None => trace
      case Some(x) => trace + [x]
  }

  lemma AnswerStarts(c: Config, s: State, e: Event)
    requires e.Answer? && e.at == s.now && Enabled(c, s, e)
    ensures OnAnswer(c, s, e.w, e.reply, e.pause, e.delay).starts == s.starts
  {
    hide Bump, BudgetLimit, Record, SetRate, SpendGuardTrips, DelayOk, Mul, DecreaseDue, Classify;
  }

  lemma StartsGrow(c: Config, s: State, e: Event)
    requires Enabled(c, s, e)
    ensures Step(c, s, e).starts ==
      if e.Token? && Grants(s.control.bucket, Acquiring(e.at)) then s.starts + [e.at] else s.starts
  {
    hide Bump, BudgetLimit, Allow, TryTake, Record, SetRate, SpendGuardTrips, Classify, DelayOk, Mul, DecreaseDue;
    if e.Answer? { AnswerStarts(c, s.(now := e.at), e); }
    hide OnAnswer;
  }

  lemma NoGrantOtherwise(c: Config, s: State, e: Event)
    ensures var x := AsBucketEvent(c, s, e);
      && (x.Some? ==> x.value.at == e.at)
      && (x.Some? && Grants(s.control.bucket, x.value) <==> e.Token? && Grants(s.control.bucket, Acquiring(e.at)))
  {
    hide Retunes, TryTake;
  }

  /** The machine's bucket is that of the projected run, and its call starts are the grants. */
  lemma {:induction false} TraceMatches(c: Config, es: seq<Event>)
    requires ValidConfig(c) && Feasible(c, Init(c), es)
    ensures var trace, s := BucketTrace(c, Init(c), es), Exec(c, Init(c), es);
      && RunBucket(c.bucket, trace) == s.control.bucket
      && Monotone(c.bucket, trace)
      && GrantTimes(c.bucket, trace) == s.starts
      && BucketOk(c, s)
  {
    if es == [] {
      hide Mul;
    } else {
      TraceMatches(c, Front(es));
      var p, e := Exec(c, Init(c), Front(es)), Last(es);
      var trace := BucketTrace(c, Init(c), Front(es));
      BucketMoves(c, p, e);
      BucketOkKept(c, p, e);
      StartsGrow(c, p, e);
      hide Step, StepBucket, Grants, Retunes;
      var x := AsBucketEvent(c, p, e);
      if x.Some? {
        assert Front(trace + [x.value]) == trace && Last(trace + [x.value]) == x.value;
      }
      NoGrantOtherwise(c, p, e);
    }
  }

  /** In any run of a job, the provider calls started in any closed window [from, to] are at
      most the bucket's capacity plus the integral of the rate over it. */
  lemma JobWindowBound(c: Config, es: seq<Event>, from: real, to: real)
    requires ValidConfig(c) && Feasible(c, Init(c), es) && from <= to
    ensures CountIn(Exec(c, Init(c), es).starts, from, to) as real
      <= c.bucket.capacity + Supply(c.bucket, BucketTrace(c, Init(c), es), from, to)
  {
    TraceMatches(c, es);
    hide Exec, BucketTrace, Supply, Monotone;
    WindowBound(c.bucket, BucketTrace(c, Init(c), es), from, to);
  }

  lemma RetunesInRange(c: Config, s: State, e: Event)
    requires ValidController(c.controller) && 0.0 <= s.control.bucket.rate <= c.controller.maxRate
    ensures Retunes(c, s, e).Some? ==> Retunes(c, s, e).value <= c.controller.maxRate
  {
    hide Mul, Classify, DecreaseDue;
    MulMono(c.controller.factor, 1.0, s.control.bucket.rate);
    MulSwap(c.controller.factor, s.control.bucket.rate, 1.0);
    MulUnits(s.control.bucket.rate);
  }

  lemma TunedRate(c: Config, s: State, e: Event)
    requires s.control.bucket.rate <= c.controller.maxRate && RATE_FLOOR <= c.controller.maxRate
    requires Retunes(c, s, e).Some? ==> Retunes(c, s, e).value <= c.controller.maxRate
    ensures var x := AsBucketEvent(c, s, e);
            x.Some? ==> StepBucket(s.control.bucket, x.value).rate <= c.controller.maxRate
  {
    hide Retunes, Mul;
  }

  lemma {:induction false} JobRateAtMost(c: Config, es: seq<Event>)
    requires ValidConfig(c) && Feasible(c, Init(c), es)
    requires ValidController(c.controller) && c.bucket.rate <= c.controller.maxRate
    ensures RateAtMost(c.bucket, BucketTrace(c, Init(c), es), c.controller.maxRate)
  {
    var trace := BucketTrace(c, Init(c), es);
    if es == [] {
      assert trace[..0] == [];
    } else {
      JobRateAtMost(c, Front(es));
      TraceMatches(c, Front(es));
      var f, p := BucketTrace(c, Init(c), Front(es)), Exec(c, Init(c), Front(es));
      assert f[..|f|] == f;
      RetunesInRange(c, p, Last(es));
      TunedRate(c, p, Last(es));
      hide Exec, Retunes, StepBucket;
      forall k | 0 <= k <= |trace| ensures RunBucket(c.bucket, trace[..k]).rate <= c.controller.maxRate {
        if k <= |f| {
          assert trace[..k] == f[..k];
        } else {
          assert trace[..k] == trace && Front(trace) == f;
        }
      }
    }
  }

  /** Pacing, end to end: with the controller's range in order, a job starts at most
      capacity + maxRate * (to - from) provider calls in any closed window. */
  lemma JobIsPaced(c: Config, es: seq<Event>, from: real, to: real)
    requires ValidConfig(c) && Feasible(c, Init(c), es) && from <= to
    requires ValidController(c.controller) && c.bucket.rate <= c.controller.maxRate
    ensures CountIn(Exec(c, Init(c), es).starts, from, to) as real
      <= c.bucket.capacity + Mul(to - from, c.controller.maxRate)
  {
    TraceMatches(c, es);
    JobRateAtMost(c, es);
    hide Exec, BucketTrace, Monotone, RateAtMost, Mul;
    PacedWindow(c.bucket, BucketTrace(c, Init(c), es), from, to, c.controller.maxRate);
  }

  // ---------------------------------------------------------------- against the upstream quota

  lemma {:induction false} StartsSorted(c: Config, es: seq<Event>)
    requires ValidConfig(c) && Feasible(c, Init(c), es)
    ensures var s := Exec(c, Init(c), es);
      Sorted(s.starts) && forall i :: 0 <= i < |s.starts| ==> s.starts[i] <= s.now
  {
    if es == [] {
    } else {
      StartsSorted(c, Front(es));
      var p := Exec(c, Init(c), Front(es));
      StartsGrow(c, p, Last(es));
      StepNow(c, p, Last(es));
      hide Step, Grants;
    }
  }

  lemma {:induction false} CountPrefix(ts: seq<real>, k: nat, lo: real, hi: real)
    requires k <= |ts|
    ensures CountIn(ts[..k], lo, hi) <= CountIn(ts, lo, hi)
  {
    if k < |ts| {
      CountPrefix(Front(ts), k, lo, hi);
      assert Front(ts)[..k] == ts[..k];
    } else {
      assert ts[..k] == ts;
    }
  }

  /** At most `ceiling` of the calls lie in the closed window ending at t. */
  predicate WithinQuota(calls: seq<real>, window: real, ceiling: nat, t: real) {
    CountIn(calls, t - window, t) <= ceiling
  }

  lemma NoCallsYet(window: real, ceiling: nat)
    ensures RunCalls(window, ceiling, []).accepted == []
  {
  }

  lemma LastFits(calls: seq<real>, window: real, ceiling: nat)
    requires calls != [] && 0.0 <= window && WithinQuota(calls, window, ceiling, Last(calls))
    ensures CountIn(Front(calls), Last(calls) - window, Last(calls)) < ceiling
  {
  }

  lemma AcceptsIfAdmitted(l: Ledger, window: real, ceiling: nat, now: real)
    requires Admits(l, window, ceiling, now)
    ensures Call(l, window, ceiling, now).accepted == l.accepted + [now]
  {
  }

  lemma AcceptNext(window: real, ceiling: nat, calls: seq<real>)
    requires calls != [] && Sorted(Front(calls)) && (Front(calls) != [] ==> Last(Front(calls)) <= Last(calls))
    requires 0.0 <= window && WithinQuota(calls, window, ceiling, Last(calls))
    requires RunCalls(window, ceiling, Front(calls)).accepted == Front(calls)
    ensures RunCalls(window, ceiling, calls).accepted == calls
  {
    hide WithinQuota, Sorted, Faithful, Admits, CountIn, Call;
    var l, t := RunCalls(window, ceiling, Front(calls)), Last(calls);
    RunFaithful(window, ceiling, Front(calls), t);
    LastFits(calls, window, ceiling);
    CallRefinesHistory(l, window, ceiling, t);
    AcceptsIfAdmitted(l, window, ceiling, t);
    assert Front(calls) + [t] == calls;
  }

  lemma SortedFront(calls: seq<real>)
    requires Sorted(calls) && calls != []
    ensures Sorted(Front(calls)) && (Front(calls) != [] ==> Last(Front(calls)) <= Last(calls))
  {
  }

  lemma FrontWithinQuota(calls: seq<real>, window: real, ceiling: nat, t: real)
    requires calls != [] && WithinQuota(calls, window, ceiling, t)
    ensures WithinQuota(Front(calls), window, ceiling, t)
  {
    CountPrefix(calls, |calls| - 1, t - window, t);
  }

  /** A quota that never sees more than `ceiling` calls in a window accepts every call. */
  lemma {:induction false} AllAccepted(window: real, ceiling: nat, calls: seq<real>)
    requires Sorted(calls)
    requires forall t :: WithinQuota(calls, window, ceiling, t)
    requires 0.0 <= window
    ensures RunCalls(window, ceiling, calls).accepted == calls
  {
    hide WithinQuota, Sorted, RunCalls;
    if calls == [] {
      NoCallsYet(window, ceiling);
    } else {
      SortedFront(calls);
      forall u ensures WithinQuota(Front(calls), window, ceiling, u) {
        FrontWithinQuota(calls, window, ceiling, u);
      }
      AllAccepted(window, ceiling, Front(calls));
      AcceptNext(window, ceiling, calls);
    }
  }

  lemma JobWithinQuota(c: Config, es: seq<Event>, window: real, ceiling: nat, t: real)
    requires ValidConfig(c) && Feasible(c, Init(c), es) && 0.0 <= window
    requires ValidController(c.controller) && c.bucket.rate <= c.controller.maxRate
    requires c.bucket.capacity + Mul(window, c.controller.maxRate) < ceiling as real + 1.0
    ensures WithinQuota(Exec(c, Init(c), es).starts, window, ceiling, t)
  {
    hide Exec, Feasible, CountIn, Mul;
    JobIsPaced(c, es, t - window, t);
    assert t - (t - window) == window;
  }

  /** A job whose capacity plus top-rate supply over one quota window stays below ceiling + 1
      never has a call refused by an upstream that enforces that ceiling on the same clock. */
  lemma JobNeverOverQuota(c: Config, es: seq<Event>, window: real, ceiling: nat)
    requires ValidConfig(c) && Feasible(c, Init(c), es) && 0.0 <= window
    requires ValidController(c.controller) && c.bucket.rate <= c.controller.maxRate
    requires c.bucket.capacity + Mul(window, c.controller.maxRate) < ceiling as real + 1.0
    ensures RunCalls(window, ceiling, Exec(c, Init(c), es).starts).accepted == Exec(c, Init(c), es).starts
  {
    StartsSorted(c, es);
    hide Exec, Feasible, WithinQuota, RunCalls, Mul;
    forall t ensures WithinQuota(Exec(c, Init(c), es).starts, window, ceiling, t) {
      JobWithinQuota(c, es, window, ceiling, t);
    }
    AllAccepted(window, ceiling, Exec(c, Init(c), es).starts);
  }
}
