// The token bucket in front of the upstream quota, on one clock: calls are issued only on
// bucket grants, while the controller retunes the rate as it likes.

module Pacing {
  import opened Models
  import opened RateLimit
  import opened Quota

  /** A worker's pass through the acquire loop and, when it is granted a token, the call it
      starts at `callAt` with no suspension in between; or a change of the rate. */
  datatype PaceEvent = Issue(grantAt: real, callAt: real) | Tune(at: real, rate: real)

  datatype Paced = Paced(bucket: Bucket, ledger: Ledger, refused: bool)

  function Start(e: PaceEvent): real { if e.Issue? then e.grantAt else e.at }
  function End(e: PaceEvent): real { if e.Issue? then e.callAt else e.at }

  function ToBucket(e: PaceEvent): BucketEvent {
    if e.Issue? then Acquiring(e.grantAt) else Retuning(e.at, e.rate)
  }

  function Trace(es: seq<PaceEvent>): seq<BucketEvent> {
    if es == [] then [] else Trace(Front(es)) + [ToBucket(Last(es))]
  }

  function RunPaced(b: Bucket, window: real, ceiling: nat, es: seq<PaceEvent>): Paced {
    if es == [] then Paced(b, FRESH_LEDGER, false)
    else
      var p := RunPaced(b, window, ceiling, Front(es));
      var after := p.(bucket := StepBucket(p.bucket, ToBucket(Last(es))));
      if Grants(p.bucket, ToBucket(Last(es))) then
        after.(ledger := Call(p.ledger, window, ceiling, Last(es).callAt),
               refused := p.refused || !Admits(p.ledger, window, ceiling, Last(es).callAt))
      else after
  }

  /** The start times of the calls that were issued. */
  function Calls(b: Bucket, es: seq<PaceEvent>): seq<real> {
    if es == [] then []
    else if Grants(RunBucket(b, Trace(Front(es))), ToBucket(Last(es))) then Calls(b, Front(es)) + [Last(es).callAt]
    else Calls(b, Front(es))
  }

  /** One clock, read in order: an event starts when the one before it is over, and a call
      starts at most `delay` after its grant. */
  predicate Timely(b: Bucket, es: seq<PaceEvent>, delay: real) {
    es != [] ==>
      && Timely(b, Front(es), delay)
      && (if |es| == 1 then b.last else End(Last(Front(es)))) <= Start(Last(es)) <= End(Last(es))
      && End(Last(es)) <= Start(Last(es)) + delay
  }

  lemma {:induction false} TraceRuns(b: Bucket, window: real, ceiling: nat, es: seq<PaceEvent>)
    ensures RunPaced(b, window, ceiling, es).bucket == RunBucket(b, Trace(es))
  {
    if es == [] {
    } else {
      TraceRuns(b, window, ceiling, Front(es));
    }
  }

  lemma SortedAppend(ts: seq<real>, t: real)
    requires Sorted(ts) && (ts != [] ==> Last(ts) <= t)
    ensures Sorted(ts + [t])
  {
  }

  lemma {:induction false} TimelyTrace(b: Bucket, es: seq<PaceEvent>, delay: real)
    requires Timely(b, es, delay)
    ensures Monotone(b, Trace(es))
    ensures RunBucket(b, Trace(es)).last <= if es == [] then b.last else End(Last(es))
    ensures Sorted(Calls(b, es))
    ensures Calls(b, es) != [] ==> es != [] && Last(Calls(b, es)) <= End(Last(es))
  {
    if es == [] {
    } else {
      hide Mul;
      TimelyTrace(b, Front(es), delay);
      assert Front(Trace(es)) == Trace(Front(es)) && Last(Trace(es)) == ToBucket(Last(es));
      SortedAppend(Calls(b, Front(es)), End(Last(es)));
    }
  }

  /** Every call of a window was granted in that window, extended back by the delay. */
  lemma {:induction false} CallsAreGrants(b: Bucket, es: seq<PaceEvent>, delay: real, lo: real, hi: real)
    requires Timely(b, es, delay)
    ensures CountIn(Calls(b, es), lo, hi) <= CountIn(GrantTimes(b, Trace(es)), lo - delay, hi)
  {
    if es == [] {
    } else {
      hide Mul, StepBucket, TryTake;
      CallsAreGrants(b, Front(es), delay, lo, hi);
      assert Front(Trace(es)) == Trace(Front(es)) && Last(Trace(es)) == ToBucket(Last(es));
      CountInAppend(Calls(b, Front(es)), End(Last(es)), lo, hi);
      CountInAppend(GrantTimes(b, Trace(Front(es))), Start(Last(es)), lo - delay, hi);
    }
  }

  lemma RateAtMostFront(b: Bucket, es: seq<PaceEvent>, m: real)
    requires es != [] && RateAtMost(b, Trace(es), m)
    ensures RateAtMost(b, Trace(Front(es)), m)
  {
    var f := Trace(Front(es));
    forall k | 0 <= k <= |f| ensures RunBucket(b, f[..k]).rate <= m { assert f[..k] == Trace(es)[..k]; }
  }

  lemma StillFaithful(l: Ledger, window: real, b: Bucket, f: seq<PaceEvent>, e: PaceEvent)
    requires if f == [] then l == FRESH_LEDGER else Faithful(l, window, End(Last(f))) && End(Last(f)) <= End(e)
    ensures Faithful(l, window, End(e))
  {
  }

  /** A call that is granted finds fewer than `ceiling` calls before it in its window. */
  lemma CallsWithinBound(b: Bucket, window: real, ceiling: nat, es: seq<PaceEvent>, delay: real, m: real)
    requires ValidBucket(b) && 0.0 <= window && 0.0 <= delay
    requires Timely(b, es, delay) && RateAtMost(b, Trace(es), m)
    requires b.capacity + Mul(window + delay, m) < ceiling as real + 1.0
    requires es != [] && Last(es).Issue? && Grants(RunBucket(b, Trace(Front(es))), ToBucket(Last(es)))
    ensures CountIn(Calls(b, Front(es)), Last(es).callAt - window, Last(es).callAt) < ceiling
  {
    hide Mul, StepBucket, Grants, RateAtMost;
    var c := Last(es).callAt;
    TimelyTrace(b, es, delay);
    CallsAreGrants(b, es, delay, c - window, c);
    PacedWindow(b, Trace(es), c - window - delay, c, m);
    CountInAppend(Calls(b, Front(es)), c, c - window, c);
  }

  lemma AcceptedGrows(l: Ledger, window: real, ceiling: nat, now: real)
    requires Admits(l, window, ceiling, now)
    ensures Call(l, window, ceiling, now).accepted == l.accepted + [now]
  {
  }

  /** Pacing composes with quota. If the bucket's capacity plus the most the rate can supply
      in one quota window (and the grant-to-call delay) is below ceiling + 1, no call is ever
      refused, for any interleaving of acquires and any rate changes up to m. */
  lemma {:induction false} NeverRefused(
    b: Bucket, window: real, ceiling: nat, es: seq<PaceEvent>, delay: real, m: real)
    requires ValidBucket(b) && 0.0 <= window && 0.0 <= delay
    requires Timely(b, es, delay) && RateAtMost(b, Trace(es), m)
    requires b.capacity + Mul(window + delay, m) < ceiling as real + 1.0
    ensures !RunPaced(b, window, ceiling, es).refused
    ensures RunPaced(b, window, ceiling, es).ledger.accepted == Calls(b, es)
    ensures es != [] ==> Faithful(RunPaced(b, window, ceiling, es).ledger, window, End(Last(es)))
  {
    if es == [] {
    } else {
      hide Mul, StepBucket, TryTake, Faithful, Admits, Call, Grants, CountIn, InWindow, Prune, RateAtMost;
      var f, e := Front(es), Last(es);
      RateAtMostFront(b, es, m);
      NeverRefused(b, window, ceiling, f, delay, m);
      TraceRuns(b, window, ceiling, f);
      var p := RunPaced(b, window, ceiling, f);
      StillFaithful(p.ledger, window, b, f, e);
      if Grants(p.bucket, ToBucket(e)) {
        CallsWithinBound(b, window, ceiling, es, delay, m);
        CallRefinesHistory(p.ledger, window, ceiling, e.callAt);
        AcceptedGrows(p.ledger, window, ceiling, e.callAt);
      }
    }
  }

  // ---------------------------------------------------------------- the bound is exact

  /** The greedy caller: it takes its k-th token at the first moment the bucket can give it. */
  function GreedyTime(cap: real, m: real, k: nat): real
    requires 0.0 < m
  {
    MaxReal(0.0, (k as real - cap) / m)
  }

  function Greedy(cap: real, m: real, n: nat): seq<PaceEvent>
    requires 0.0 < m
  {
    if n == 0 then [] else Greedy(cap, m, n - 1) + [Issue(GreedyTime(cap, m, n), GreedyTime(cap, m, n))]
  }

  lemma GreedyTimeMeans(cap: real, m: real, k: nat)
    requires 0.0 < m
    ensures Mul(GreedyTime(cap, m, k), m) == MaxReal(0.0, k as real - cap)
  {
    hide Mul;
    MulUnits(m);
    var x := (k as real - cap) / m;
    MulDiv(k as real - cap, m);
    if x < 0.0 { MulStrict(x, 0.0, m); }
    if x > 0.0 { MulStrict(0.0, x, m); }
  }

  lemma GreedyTimeSign(cap: real, m: real, k: nat)
    requires 0.0 < m
    ensures 0.0 <= GreedyTime(cap, m, k)
  {
  }

  lemma GreedyTimeGrows(cap: real, m: real, k: nat)
    requires 0.0 < m
    ensures GreedyTime(cap, m, k) <= GreedyTime(cap, m, k + 1)
  {
    hide Mul, GreedyTime;
    GreedyTimeMeans(cap, m, k);
    GreedyTimeMeans(cap, m, k + 1);
    if GreedyTime(cap, m, k) > GreedyTime(cap, m, k + 1) {
      MulStrict(GreedyTime(cap, m, k + 1), GreedyTime(cap, m, k), m);
      GreedyTimeSign(cap, m, k);
    }
  }

  function Fresh(cap: real, m: real): Bucket { Bucket(m, cap, cap, 0.0) }

  /** A bucket that has never been clipped, asked when it holds at least one token. */
  lemma TakeAt(b: Bucket, t: real)
    requires b.last <= t && 1.0 <= b.tokens - Mul(b.last, b.rate) + Mul(t, b.rate) <= b.capacity
    ensures TryTake(b, t) == (b.(tokens := b.tokens - Mul(b.last, b.rate) + Mul(t, b.rate) - 1.0, last := t), Granted)
  {
    hide Mul;
    MulAdd(b.last, t - b.last, b.rate);
  }

  /** The greedy caller is never made to wait: it holds the rate at m and gets every token. */
  lemma {:induction false} GreedyBucket(cap: real, m: real, n: nat)
    requires RATE_FLOOR <= m && 1.0 <= cap
    ensures RunBucket(Fresh(cap, m), Trace(Greedy(cap, m, n)))
      == Bucket(m, cap, MaxReal(cap - n as real, 0.0), if n == 0 then 0.0 else GreedyTime(cap, m, n))
    ensures n > 0 ==>
      Grants(RunBucket(Fresh(cap, m), Trace(Greedy(cap, m, n - 1))), Acquiring(GreedyTime(cap, m, n)))
  {
    if n == 0 {
    } else {
      hide Mul, GreedyTime, TryTake;
      GreedyBucket(cap, m, n - 1);
      var b := RunBucket(Fresh(cap, m), Trace(Greedy(cap, m, n - 1)));
      var t := GreedyTime(cap, m, n);
      assert Front(Greedy(cap, m, n)) == Greedy(cap, m, n - 1);
      assert Front(Trace(Greedy(cap, m, n))) == Trace(Greedy(cap, m, n - 1));
      GreedyTimeMeans(cap, m, n);
      if n == 1 { MulUnits(m); } else { GreedyTimeMeans(cap, m, n - 1); }
      assert Mul(b.last, m) == MaxReal(0.0, (n - 1) as real - cap);
      GreedyTimeGrows(cap, m, n - 1);
      GreedyTimeSign(cap, m, n);
      TakeAt(b, t);
    }
  }

  lemma {:induction false} GreedyTimely(cap: real, m: real, n: nat)
    requires 0.0 < m
    ensures var es := Greedy(cap, m, n);
            && |es| == n && Timely(Fresh(cap, m), es, 0.0)
            && (n > 0 ==> Last(es) == Issue(GreedyTime(cap, m, n), GreedyTime(cap, m, n)))
  {
    if n == 0 {
    } else {
      hide GreedyTime;
      GreedyTimely(cap, m, n - 1);
      GreedyTimeGrows(cap, m, n - 1);
      GreedyTimeSign(cap, m, n);
      assert Front(Greedy(cap, m, n)) == Greedy(cap, m, n - 1);
    }
  }

  lemma RateAtMostNext(b: Bucket, xs: seq<BucketEvent>, x: BucketEvent, m: real)
    requires RateAtMost(b, xs, m) && RunBucket(b, xs + [x]).rate <= m
    ensures RateAtMost(b, xs + [x], m)
  {
    hide StepBucket;
    var ys := xs + [x];
    forall k | 0 <= k <= |ys| ensures RunBucket(b, ys[..k]).rate <= m {
      if k <= |xs| { assert ys[..k] == xs[..k]; } else { assert ys[..k] == ys; }
    }
  }

  lemma NoTrace(b: Bucket, m: real)
    requires b.rate <= m
    ensures RateAtMost(b, [], m)
  {
    var xs: seq<BucketEvent> := [];
    forall k | 0 <= k <= |xs| ensures RunBucket(b, xs[..k]).rate <= m { assert xs[..k] == xs; }
  }

  lemma {:induction false} GreedyRate(cap: real, m: real, n: nat)
    requires RATE_FLOOR <= m && 1.0 <= cap
    ensures RateAtMost(Fresh(cap, m), Trace(Greedy(cap, m, n)), m)
  {
    hide Mul, GreedyTime, StepBucket, RateAtMost;
    if n == 0 {
      NoTrace(Fresh(cap, m), m);
    } else {
      GreedyRate(cap, m, n - 1);
      GreedyBucket(cap, m, n);
      hide RunBucket;
      var x := Issue(GreedyTime(cap, m, n), GreedyTime(cap, m, n));
      assert Front(Greedy(cap, m, n)) == Greedy(cap, m, n - 1) && Last(Greedy(cap, m, n)) == x;
      RateAtMostNext(Fresh(cap, m), Trace(Greedy(cap, m, n - 1)), ToBucket(x), m);
    }
  }

  lemma {:induction false} GreedyCalls(cap: real, m: real, n: nat)
    requires RATE_FLOOR <= m && 1.0 <= cap
    ensures var ts := Calls(Fresh(cap, m), Greedy(cap, m, n));
            && |ts| == n
            && forall i :: 0 <= i < n ==> 0.0 <= ts[i] <= GreedyTime(cap, m, n)
  {
    if n == 0 {
    } else {
      GreedyCalls(cap, m, n - 1);
      GreedyBucket(cap, m, n);
      hide Mul, GreedyTime, StepBucket, Grants;
      GreedyTimeGrows(cap, m, n - 1);
      GreedyTimeSign(cap, m, n);
      assert Front(Greedy(cap, m, n)) == Greedy(cap, m, n - 1);
    }
  }

  lemma {:induction false} CountAll(ts: seq<real>, lo: real, hi: real)
    requires forall i :: 0 <= i < |ts| ==> lo <= ts[i] <= hi
    ensures CountIn(ts, lo, hi) == |ts|
  {
    if ts == [] {
    } else {
      CountAll(Front(ts), lo, hi);
    }
  }

  lemma GreedyFitsWindow(cap: real, m: real, window: real, k: nat)
    requires 0.0 < m && 0.0 <= window && cap + Mul(window, m) >= k as real
    ensures GreedyTime(cap, m, k) <= window
  {
    GreedyTimeMeans(cap, m, k);
    hide Mul, GreedyTime;
    MulUnits(m);
    MulMono(0.0, window, m);
    if GreedyTime(cap, m, k) > window { MulStrict(window, GreedyTime(cap, m, k), m); }
  }

  lemma FullWindowRefuses(l: Ledger, window: real, ceiling: nat, last: real, t: real)
    requires Faithful(l, window, last) && last <= t <= window && |l.accepted| >= ceiling
    requires forall i :: 0 <= i < |l.accepted| ==> 0.0 <= l.accepted[i] <= last
    ensures !Admits(l, window, ceiling, t)
  {
    hide Admits, Call;
    FaithfulLater(l, window, last, t);
    CountAll(l.accepted, t - window, t);
    CallRefinesHistory(l, window, ceiling, t);
  }

  lemma RefusalSticks(b: Bucket, window: real, ceiling: nat, es: seq<PaceEvent>)
    requires es != [] && Last(es).Issue?
    requires var p := RunPaced(b, window, ceiling, Front(es));
      Grants(p.bucket, ToBucket(Last(es))) && (p.refused || !Admits(p.ledger, window, ceiling, Last(es).callAt))
    ensures RunPaced(b, window, ceiling, es).refused
  {
    hide StepBucket, Grants, Admits, Call;
  }

  lemma {:induction false} UnrefusedLedger(b: Bucket, window: real, ceiling: nat, es: seq<PaceEvent>, delay: real)
    requires Timely(b, es, delay) && !RunPaced(b, window, ceiling, es).refused
    ensures RunPaced(b, window, ceiling, es).ledger.accepted == Calls(b, es)
    ensures Faithful(RunPaced(b, window, ceiling, es).ledger, window, if es == [] then b.last else End(Last(es)))
  {
    if es == [] {
    } else {
      hide StepBucket, Grants, Faithful, Admits;
      var f, e := Front(es), Last(es);
      UnrefusedLedger(b, window, ceiling, f, delay);
      TraceRuns(b, window, ceiling, f);
      var l := RunPaced(b, window, ceiling, f).ledger;
      FaithfulLater(l, window, if f == [] then b.last else End(Last(f)), End(e));
      if Grants(RunPaced(b, window, ceiling, f).bucket, ToBucket(e)) {
        AcceptedGrows(l, window, ceiling, End(e));
        CallRefinesHistory(l, window, ceiling, End(e));
      }
    }
  }

  /** With one call more than the bound allows for, the greedy caller is refused. */
  lemma GreedyIsRefused(cap: real, m: real, window: real, ceiling: nat)
    requires RATE_FLOOR <= m && 1.0 <= cap && 0.0 <= window
    requires cap + Mul(window, m) >= ceiling as real + 1.0
    ensures RunPaced(Fresh(cap, m), window, ceiling, Greedy(cap, m, ceiling + 1)).refused
  {
    hide Mul, GreedyTime, StepBucket, Grants, Faithful, Admits, RateAtMost, Timely, RunPaced, CountIn;
    var b, f := Fresh(cap, m), Greedy(cap, m, ceiling);
    var t := GreedyTime(cap, m, ceiling + 1);
    assert Front(Greedy(cap, m, ceiling + 1)) == f && Last(Greedy(cap, m, ceiling + 1)) == Issue(t, t);
    GreedyFitsWindow(cap, m, window, ceiling + 1);
    GreedyTimely(cap, m, ceiling);
    GreedyCalls(cap, m, ceiling);
    GreedyTimeGrows(cap, m, ceiling);
    GreedyTimeSign(cap, m, ceiling + 1);
    GreedyBucket(cap, m, ceiling + 1);
    TraceRuns(b, window, ceiling, f);
    var p := RunPaced(b, window, ceiling, f);
    if !p.refused {
      UnrefusedLedger(b, window, ceiling, f, 0.0);
      FullWindowRefuses(p.ledger, window, ceiling, if f == [] then 0.0 else GreedyTime(cap, m, ceiling), t);
    }
    RefusalSticks(b, window, ceiling, Greedy(cap, m, ceiling + 1));
  }

  /** Exactly when pacing is safe: from a full bucket of capacity `cap`, with the rate free to
      move up to m, every schedule avoids a ceiling 429 if and only if
      cap + m * window < ceiling + 1. */
  lemma PacingExact(cap: real, m: real, window: real, ceiling: nat)
    requires RATE_FLOOR <= m && 1.0 <= cap && 0.0 <= window
    ensures cap + Mul(window, m) < ceiling as real + 1.0
      <==> forall es ::
        Timely(Fresh(cap, m), es, 0.0) && RateAtMost(Fresh(cap, m), Trace(es), m) ==>
          !RunPaced(Fresh(cap, m), window, ceiling, es).refused
  {
    if cap + Mul(window, m) < ceiling as real + 1.0 {
      forall es | Timely(Fresh(cap, m), es, 0.0) && RateAtMost(Fresh(cap, m), Trace(es), m)
        ensures !RunPaced(Fresh(cap, m), window, ceiling, es).refused
      {
        NeverRefused(Fresh(cap, m), window, ceiling, es, 0.0, m);
      }
    } else {
      GreedyTimely(cap, m, ceiling + 1);
      GreedyRate(cap, m, ceiling + 1);
      GreedyIsRefused(cap, m, window, ceiling);
    }
  }

  /** A job wired for exactly the upstream's own limit of `rpm` requests in 60 seconds can be
      refused whatever the limit, even with its rate held still: the burst capacity is too much. */
  lemma JobWiringCanBeRefused(rpm: nat)
    requires rpm >= 1
    ensures exists es ::
      && Timely(JobBucket(rpm, 0.0), es, 0.0)
      && RateAtMost(JobBucket(rpm, 0.0), Trace(es), JobRate(rpm))
      && RunPaced(JobBucket(rpm, 0.0), 60.0, rpm, es).refused
  {
    assert JobBucket(rpm, 0.0) == Fresh(JobCapacity(rpm), JobRate(rpm));
    GreedyTimely(JobCapacity(rpm), JobRate(rpm), rpm + 1);
    GreedyRate(JobCapacity(rpm), JobRate(rpm), rpm + 1);
    GreedyIsRefused(JobCapacity(rpm), JobRate(rpm), 60.0, rpm);
  }
}
