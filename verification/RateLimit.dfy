// core/ratelimit.py: the token bucket, the AIMD controller that retunes it, and the
// quantitative bounds they keep over every run. Time is a real read from one monotone clock.

module RateLimit {
  import opened Models

  // ---------------------------------------------------------------- token bucket

  datatype Bucket = Bucket(rate: real, capacity: real, tokens: real, last: real)

  datatype Take = Granted | Wait(seconds: real)

  const RATE_FLOOR: real := 0.000001
  const WAIT_FLOOR: real := 0.001

  function Refill(b: Bucket, now: real): Bucket {
    var elapsed := MaxReal(0.0, now - b.last);
    b.(tokens := MinReal(b.capacity, b.tokens + Mul(elapsed, b.rate)), last := now)
  }

  /** One pass of the acquire loop: what it does to the bucket, and whether it got a token. */
  function TryTake(b: Bucket, now: real): (Bucket, Take) {
    var b := Refill(b, now);
    if b.tokens >= 1.0 then (b.(tokens := b.tokens - 1.0), Granted)
    else (b, Wait(MaxReal(if b.rate > 0.0 then (1.0 - b.tokens) / b.rate else 0.05, WAIT_FLOOR)))
  }

  function SetRate(b: Bucket, rate: real, now: real): Bucket {
    Refill(b, now).(rate := MaxReal(rate, RATE_FLOOR))
  }

  predicate ValidBucket(b: Bucket) {
    0.0 < b.rate && 1.0 <= b.capacity && 0.0 <= b.tokens <= b.capacity
  }

  lemma RefillValid(b: Bucket, now: real)
    requires ValidBucket(b)
    ensures ValidBucket(Refill(b, now))
    ensures b.tokens <= Refill(b, now).tokens
  {
    hide Mul;
    MulMono(0.0, MaxReal(0.0, now - b.last), b.rate);
    MulUnits(b.rate);
  }

  lemma TryTakeValid(b: Bucket, now: real)
    requires ValidBucket(b)
    ensures ValidBucket(TryTake(b, now).0)
  {
    RefillValid(b, now);
  }

  /** A caller that was told to wait w seconds, with nothing else touching the bucket, is
      granted its token at the first pass made w seconds later: the computed wait is enough. */
  lemma WaitSuffices(b: Bucket, now: real, later: real)
    requires ValidBucket(b)
    requires TryTake(b, now).1.Wait? && later >= now + TryTake(b, now).1.seconds
    ensures TryTake(TryTake(b, now).0, later).1.Granted?
  {
    hide Mul;
    RefillValid(b, now);
    var r := Refill(b, now);
    var need := (1.0 - r.tokens) / r.rate;
    MulDiv(1.0 - r.tokens, r.rate);
    MulMono(need, MaxReal(0.0, later - now), r.rate);
  }

  /** And the computed wait is no longer than it must be: a caller told to wait w seconds, above the
      floor of a millisecond, is told to wait again at any earlier pass. */
  lemma WaitIsNeeded(b: Bucket, now: real, t: real)
    requires ValidBucket(b)
    requires TryTake(b, now).1.Wait? && TryTake(b, now).1.seconds > 0.001
    requires now <= t < now + TryTake(b, now).1.seconds
    ensures TryTake(TryTake(b, now).0, t).1.Wait?
  {
    hide Mul;
    RefillValid(b, now);
    var r := Refill(b, now);
    var need := (1.0 - r.tokens) / r.rate;
    MulDiv(1.0 - r.tokens, r.rate);
    MulStrict(t - now, need, r.rate);
  }

  class TokenBucket {
    const capacity: real
    var rate: real
    var tokens: real
    var lastRefill: real

    ghost function View(): Bucket
      reads this
    {
      Bucket(rate, capacity, tokens, lastRefill)
    }

    constructor (rate: real, capacity: real, now: real)
      ensures View() == Bucket(rate, capacity, capacity, now)
    {
      this.rate, this.capacity, tokens, lastRefill := rate, capacity, capacity, now;
    }

    method RefillAt(now: real)
      modifies this`tokens, this`lastRefill
      ensures View() == Refill(old(View()), now)
    {
      var elapsed := MaxReal(0.0, now - lastRefill);
      tokens := MinReal(capacity, tokens + Mul(elapsed, rate));
      lastRefill := now;
    }

    method TryAcquire(now: real) returns (take: Take)
      modifies this
      ensures (View(), take) == TryTake(old(View()), now)
    {
      RefillAt(now);
      if tokens >= 1.0 {
        tokens := tokens - 1.0;
        return Granted;
      }
      var deficit := 1.0 - tokens;
      var wait := if rate > 0.0 then deficit / rate else 0.05;
      return Wait(MaxReal(wait, WAIT_FLOOR));
    }

    /** The whole acquire loop of a caller that has the bucket to itself, on a clock that its
        sleeps alone move: it ends after at most one sleep, with one token taken. */
    method Acquire(now: real) returns (grantedAt: real)
      requires ValidBucket(View())
      modifies this
      ensures ValidBucket(View()) && grantedAt >= now && lastRefill == grantedAt
      ensures View() == TryTake(if grantedAt == now then old(View()) else TryTake(old(View()), now).0, grantedAt).0
      ensures grantedAt == now <==> TryTake(old(View()), now).1.Granted?
      ensures grantedAt > now ==> grantedAt == now + TryTake(old(View()), now).1.seconds
    {
      grantedAt := now;
      ghost var b0 := View();
      var sleeps := 0;
      while true
        invariant 0 <= sleeps <= 1 && ValidBucket(View())
        invariant sleeps == 0 ==> grantedAt == now && View() == b0
        invariant sleeps == 1 ==> TryTake(b0, now).1.Wait? && View() == TryTake(b0, now).0
        invariant sleeps == 1 ==> grantedAt == now + TryTake(b0, now).1.seconds
        decreases 1 - sleeps
      {
        TryTakeValid(View(), grantedAt);
        if sleeps == 1 { WaitSuffices(b0, now, grantedAt); }
        var take := TryAcquire(grantedAt);
        if take.Granted? { return; }
        grantedAt := grantedAt + take.seconds;
        sleeps := sleeps + 1;
      }
    }

    method Retune(newRate: real, now: real)
      modifies this
      ensures View() == SetRate(old(View()), newRate, now)
      ensures rate == if newRate < 0.000001 then 0.000001 else newRate
    {
      RefillAt(now);
      rate := MaxReal(newRate, RATE_FLOOR);
    }
  }

  // ---------------------------------------------------------------- bucket runs

  datatype BucketEvent = Acquiring(at: real) | Retuning(at: real, rate: real)

  function StepBucket(b: Bucket, e: BucketEvent): Bucket {
    match e
    case Acquiring(at) => TryTake(b, at).0
    case Retuning(at, rate) => SetRate(b, rate, at)
  }

  function RunBucket(b: Bucket, es: seq<BucketEvent>): Bucket {
    if es == [] then b else StepBucket(RunBucket(b, Front(es)), Last(es))
  }

  /** The clock never goes back: event times are non-decreasing, from the bucket's own. */
  predicate Monotone(b: Bucket, es: seq<BucketEvent>) {
    es != [] ==> Monotone(b, Front(es)) && RunBucket(b, Front(es)).last <= Last(es).at
  }

  predicate Grants(b: Bucket, e: BucketEvent) {
    e.Acquiring? && TryTake(b, e.at).1.Granted?
  }

  /** The times at which a run handed out tokens. */
  function GrantTimes(b: Bucket, es: seq<BucketEvent>): seq<real> {
    if es == [] then []
    else if Grants(RunBucket(b, Front(es)), Last(es)) then GrantTimes(b, Front(es)) + [Last(es).at]
    else GrantTimes(b, Front(es))
  }

  /** How many entries of `ts` lie in the closed window [s, e]. */
  function CountIn(ts: seq<real>, s: real, e: real): nat {
    if ts == [] then 0 else CountIn(Front(ts), s, e) + if s <= Last(ts) <= e then 1 else 0
  }

  lemma CountInAppend(ts: seq<real>, t: real, s: real, e: real)
    ensures CountIn(ts + [t], s, e) == CountIn(ts, s, e) + if s <= t <= e then 1 else 0
  {
    assert Front(ts + [t]) == ts;
  }

  /** The length of [a, c] inside the window [s, e]. */
  function Overlap(a: real, c: real, s: real, e: real): real {
    MaxReal(0.0, MinReal(c, e) - MaxReal(a, s))
  }

  /** The integral of the rate over the part of [s, e] that the run covers. */
  function Supply(b: Bucket, es: seq<BucketEvent>, s: real, e: real): real {
    if es == [] then 0.0
    else
      var p := RunBucket(b, Front(es));
      Supply(b, Front(es), s, e) + Mul(Overlap(p.last, Last(es).at, s, e), p.rate)
  }

  lemma {:induction false} RunValid(b: Bucket, es: seq<BucketEvent>)
    requires ValidBucket(b)
    ensures ValidBucket(RunBucket(b, es)) && RunBucket(b, es).capacity == b.capacity
  {
    if es == [] {
    } else {
      hide Mul;
      RunValid(b, Front(es));
      RefillValid(RunBucket(b, Front(es)), Last(es).at);
    }
  }

  lemma {:induction false} SupplyNonNegative(b: Bucket, es: seq<BucketEvent>, s: real, e: real)
    requires ValidBucket(b)
    ensures Supply(b, es, s, e) >= 0.0
  {
    if es == [] {
    } else {
      hide Mul;
      SupplyNonNegative(b, Front(es), s, e);
      RunValid(b, Front(es));
      var p := RunBucket(b, Front(es));
      MulMono(0.0, Overlap(p.last, Last(es).at, s, e), p.rate);
      MulUnits(p.rate);
    }
  }

  /** One event: tokens held plus tokens handed out grow by no more than the rate supplies,
      and never past the capacity. */
  lemma StepPotential(p: Bucket, e: BucketEvent)
    requires ValidBucket(p) && p.last <= e.at
    ensures StepBucket(p, e).last == e.at
    ensures StepBucket(p, e).tokens + (if Grants(p, e) then 1.0 else 0.0)
      <= MinReal(p.capacity, p.tokens + Mul(e.at - p.last, p.rate))
  {
    hide Mul;
    RefillValid(p, e.at);
    assert MaxReal(0.0, e.at - p.last) == e.at - p.last;
  }

  /** The potential argument: inside the window, tokens handed out plus tokens still held
      never exceed the capacity plus what the rate supplied; before it, nothing is handed out. */
  lemma {:induction false} WindowPotential(b: Bucket, es: seq<BucketEvent>, s: real, e: real)
    requires ValidBucket(b) && Monotone(b, es) && RunBucket(b, es).last <= e
    ensures RunBucket(b, es).last < s ==> CountIn(GrantTimes(b, es), s, e) == 0
    ensures RunBucket(b, es).last >= s ==>
      CountIn(GrantTimes(b, es), s, e) as real + RunBucket(b, es).tokens <= b.capacity + Supply(b, es, s, e)
  {
    if es == [] {
    } else {
      hide Mul;
      var p, ev := RunBucket(b, Front(es)), Last(es);
      RunValid(b, Front(es));
      StepPotential(p, ev);
      WindowPotential(b, Front(es), s, e);
      SupplyNonNegative(b, Front(es), s, e);
      CountInAppend(GrantTimes(b, Front(es)), ev.at, s, e);
      MulMono(0.0, Overlap(p.last, ev.at, s, e), p.rate);
      MulUnits(p.rate);
      if p.last >= s { assert Overlap(p.last, ev.at, s, e) == ev.at - p.last; }
    }
  }

  /** However acquires and rate changes interleave, the tokens granted in any closed window
      [s, e] are at most the capacity plus the integral of the rate over it. */
  lemma {:induction false} WindowBound(b: Bucket, es: seq<BucketEvent>, s: real, e: real)
    requires ValidBucket(b) && Monotone(b, es) && s <= e
    ensures CountIn(GrantTimes(b, es), s, e) as real <= b.capacity + Supply(b, es, s, e)
  {
    hide Mul;
    RunValid(b, es);
    SupplyNonNegative(b, es, s, e);
    if RunBucket(b, es).last <= e {
      WindowPotential(b, es, s, e);
    } else if es != [] {
      WindowBound(b, Front(es), s, e);
      var p := RunBucket(b, Front(es));
      RunValid(b, Front(es));
      CountInAppend(GrantTimes(b, Front(es)), Last(es).at, s, e);
      MulMono(0.0, Overlap(p.last, Last(es).at, s, e), p.rate);
      MulUnits(p.rate);
    }
  }

  ghost predicate RateAtMost(b: Bucket, es: seq<BucketEvent>, m: real) {
    forall k :: 0 <= k <= |es| ==> RunBucket(b, es[..k]).rate <= m
  }

  lemma {:induction false} MonotoneEnd(b: Bucket, es: seq<BucketEvent>)
    requires Monotone(b, es)
    ensures b.last <= RunBucket(b, es).last
  {
    if es == [] {
    } else {
      hide Mul;
      MonotoneEnd(b, Front(es));
    }
  }

  lemma {:induction false} SupplyAtMost(b: Bucket, es: seq<BucketEvent>, s: real, e: real, m: real)
    requires ValidBucket(b) && Monotone(b, es) && s <= e && RateAtMost(b, es, m)
    ensures Supply(b, es, s, e) <= Mul(Overlap(b.last, RunBucket(b, es).last, s, e), m)
  {
    hide Mul;
    if es == [] {
      MulUnits(m);
    } else {
      var f, t := Front(es), Last(es).at;
      var p := RunBucket(b, f);
      assert p.rate <= m by { assert f == es[..|es| - 1]; }
      assert RateAtMost(b, f, m) by {
        forall k | 0 <= k <= |f| ensures RunBucket(b, f[..k]).rate <= m { assert f[..k] == es[..k]; }
      }
      SupplyAtMost(b, f, s, e, m);
      MonotoneEnd(b, f);
      var x, y := Overlap(b.last, p.last, s, e), Overlap(p.last, t, s, e);
      assert Overlap(b.last, t, s, e) == x + y;
      MulAdd(x, y, m);
      MulMono(p.rate, m, y);
      MulSwap(p.rate, y, 1.0);
      MulSwap(m, y, 1.0);
    }
  }

  /** The window bound in terms of the top rate: with the rate never above m, at most
      capacity + m * (e - s) tokens leave the bucket in [s, e]. */
  lemma PacedWindow(b: Bucket, es: seq<BucketEvent>, s: real, e: real, m: real)
    requires ValidBucket(b) && Monotone(b, es) && s <= e && RateAtMost(b, es, m)
    ensures CountIn(GrantTimes(b, es), s, e) as real <= b.capacity + Mul(e - s, m)
  {
    hide Mul;
    WindowBound(b, es, s, e);
    SupplyAtMost(b, es, s, e, m);
    assert 0.0 <= m by { assert es[..0] == []; }
    MulMono(Overlap(b.last, RunBucket(b, es).last, s, e), e - s, m);
  }

  /** Nothing is wasted: the tokens held and handed out are at least the initial ones and all that
      the rate has supplied, but for what does not fit the capacity. */
  lemma {:induction false} NothingWasted(b: Bucket, es: seq<BucketEvent>, from: real, to: real)
    requires ValidBucket(b) && Monotone(b, es) && from <= b.last && RunBucket(b, es).last <= to
    ensures RunBucket(b, es).tokens + |GrantTimes(b, es)| as real
      >= MinReal(b.capacity, b.tokens + Supply(b, es, from, to))
  {
    if es == [] {
    } else {
      hide Mul;
      var f, t := Front(es), Last(es).at;
      var p := RunBucket(b, f);
      NothingWasted(b, f, from, to);
      RunValid(b, f);
      MonotoneEnd(b, f);
      assert Overlap(p.last, t, from, to) == t - p.last;
      MulMono(0.0, t - p.last, p.rate);
      MulUnits(p.rate);
    }
  }

  // ---------------------------------------------------------------- AIMD controller

  datatype ControllerConfig = ControllerConfig(
    minRate: real, maxRate: real, factor: real, step: real, streak: nat, cooldown: real)

  /** `lastDecrease` is None where the source starts from minus infinity. */
  datatype Controller = Controller(successes: nat, lastDecrease: Option<real>, throttles: nat, retries: nat)

  const FRESH_CONTROLLER := Controller(0, None, 0, 0)

  datatype Tuned = Tuned(controller: Controller, bucket: Bucket)

  predicate DecreaseDue(cfg: ControllerConfig, c: Controller, now: real) {
    c.lastDecrease.None? || now - c.lastDecrease.value >= cfg.cooldown
  }

  function OnSuccess(cfg: ControllerConfig, c: Controller, b: Bucket, now: real): Tuned {
    if c.successes + 1 >= cfg.streak then
      Tuned(c.(successes := 0), SetRate(b, MinReal(cfg.maxRate, b.rate + cfg.step), now))
    else Tuned(c.(successes := c.successes + 1), b)
  }

  function OnThrottle(cfg: ControllerConfig, c: Controller, b: Bucket, now: real): Tuned {
    var c := c.(throttles := c.throttles + 1, successes := 0);
    if DecreaseDue(cfg, c, now) then
      Tuned(c.(lastDecrease := Some(now)), SetRate(b, MaxReal(cfg.minRate, Mul(b.rate, cfg.factor)), now))
    else Tuned(c, b)
  }

  class AdaptiveController {
    const cfg: ControllerConfig
    const bucket: TokenBucket
    var successes: nat
    var lastDecrease: Option<real>
    var throttles: nat
    var retries: nat

    ghost function View(): Controller
      reads this
    {
      Controller(successes, lastDecrease, throttles, retries)
    }

    constructor (cfg: ControllerConfig, bucket: TokenBucket)
      ensures this.cfg == cfg && this.bucket == bucket && View() == FRESH_CONTROLLER
    {
      this.cfg, this.bucket := cfg, bucket;
      successes, lastDecrease, throttles, retries := 0, None, 0, 0;
    }

    method RecordSuccess(now: real)
      modifies this, bucket
      ensures Tuned(View(), bucket.View()) == OnSuccess(cfg, old(View()), old(bucket.View()), now)
    {
      successes := successes + 1;
      if successes >= cfg.streak {
        bucket.Retune(MinReal(cfg.maxRate, bucket.rate + cfg.step), now);
        successes := 0;
      }
    }

    method RecordThrottle(now: real)
      modifies this, bucket
      ensures Tuned(View(), bucket.View()) == OnThrottle(cfg, old(View()), old(bucket.View()), now)
    {
      throttles := throttles + 1;
      successes := 0;
      if lastDecrease.None? || now - lastDecrease.value >= cfg.cooldown {
        bucket.Retune(MaxReal(cfg.minRate, Mul(bucket.rate, cfg.factor)), now);
        lastDecrease := Some(now);
      }
    }

    method RecordRetryIssued()
      modifies this`retries
      ensures View() == old(View()).(retries := old(retries) + 1)
    {
      retries := retries + 1;
    }
  }

  // ---------------------------------------------------------------- AIMD runs

  datatype Signal = Succeeded(at: real) | Throttled429(at: real) | Took(at: real)

  function StepTuned(cfg: ControllerConfig, s: Tuned, e: Signal): Tuned {
    match e
    case Succeeded(at) => OnSuccess(cfg, s.controller, s.bucket, at)
    case Throttled429(at) => OnThrottle(cfg, s.controller, s.bucket, at)
    case Took(at) => s.(bucket := TryTake(s.bucket, at).0)
  }

  function RunTuned(cfg: ControllerConfig, s: Tuned, es: seq<Signal>): Tuned {
    if es == [] then s else StepTuned(cfg, RunTuned(cfg, s, Front(es)), Last(es))
  }

  predicate InOrder(t0: real, es: seq<Signal>) {
    es != [] ==>
      InOrder(t0, Front(es)) && Last(es).at >= if |es| == 1 then t0 else Last(Front(es)).at
  }

  predicate ValidController(cfg: ControllerConfig) {
    && RATE_FLOOR <= cfg.minRate <= cfg.maxRate
    && 0.0 <= cfg.factor <= 1.0 && 0.0 <= cfg.step && 0.0 < cfg.cooldown
  }

  predicate RateInRange(cfg: ControllerConfig, s: Tuned) {
    cfg.minRate <= s.bucket.rate <= cfg.maxRate
  }

  function Pow(x: real, k: nat): real { if k == 0 then 1.0 else Mul(Pow(x, k - 1), x) }

  lemma {:induction false} PowShrinks(x: real, j: nat, k: nat)
    requires 0.0 <= x <= 1.0 && j <= k
    ensures 0.0 <= Pow(x, k) <= Pow(x, j)
    decreases k
  {
    if k == 0 {
    } else {
      hide Mul;
      var p := Pow(x, k - 1);
      PowShrinks(x, if j < k then j else k - 1, k - 1);
      MulMono(0.0, p, x);
      MulMono(x, 1.0, p);
      MulSwap(x, p, 1.0);
      MulUnits(x);
      MulUnits(p);
    }
  }

  /** How many of the signals actually lowered the rate. */
  function Decreases(cfg: ControllerConfig, s: Tuned, es: seq<Signal>): nat {
    if es == [] then 0
    else
      Decreases(cfg, s, Front(es)) +
      if Last(es).Throttled429? && DecreaseDue(cfg, RunTuned(cfg, s, Front(es)).controller, Last(es).at)
      then 1 else 0
  }

  /** The decreases of a run are at least a cooldown apart, whatever the throttles do. */
  lemma {:induction false} DecreasesSpaced(cfg: ControllerConfig, s: Tuned, es: seq<Signal>, t0: real)
    requires ValidController(cfg) && InOrder(t0, es)
    ensures es != [] ==> Last(es).at >= t0
    ensures Decreases(cfg, s, es) >= 1 ==>
      && es != []
      && RunTuned(cfg, s, es).controller.lastDecrease.Some?
      && t0 + Mul((Decreases(cfg, s, es) - 1) as real, cfg.cooldown)
          <= RunTuned(cfg, s, es).controller.lastDecrease.value
          <= Last(es).at
  {
    if es == [] {
    } else {
      hide Mul;
      DecreasesSpaced(cfg, s, Front(es), t0);
      var d: int := Decreases(cfg, s, Front(es));
      MulAdd((d - 1) as real, 1.0, cfg.cooldown);
      MulUnits(cfg.cooldown);
    }
  }

  /** Each decrease multiplies the rate by the factor at most once; nothing else lowers it. */
  lemma {:induction false} RateFloorByDecreases(cfg: ControllerConfig, s: Tuned, es: seq<Signal>)
    requires ValidController(cfg) && RateInRange(cfg, s)
    ensures RateInRange(cfg, RunTuned(cfg, s, es))
    ensures RunTuned(cfg, s, es).bucket.rate >= Mul(s.bucket.rate, Pow(cfg.factor, Decreases(cfg, s, es)))
  {
    hide Mul;
    MulUnits(s.bucket.rate);
    MulSwap(1.0, s.bucket.rate, 1.0);
    if es == [] {
    } else {
      RateFloorByDecreases(cfg, s, Front(es));
      var p, d := RunTuned(cfg, s, Front(es)), Decreases(cfg, s, Front(es));
      MulMono(Mul(s.bucket.rate, Pow(cfg.factor, d)), p.bucket.rate, cfg.factor);
      MulSwap(s.bucket.rate, Pow(cfg.factor, d), cfg.factor);
      MulMono(cfg.factor, 1.0, p.bucket.rate);
      MulSwap(cfg.factor, p.bucket.rate, 1.0);
      MulUnits(p.bucket.rate);
    }
  }

  lemma StartedCooldowns(d: int, elapsed: real, cooldown: real)
    requires 0.0 < cooldown && 0.0 <= elapsed
    requires d >= 1 ==> Mul((d - 1) as real, cooldown) <= elapsed
    ensures 0.0 <= elapsed / cooldown && d <= (elapsed / cooldown).Floor + 1
  {
    hide Mul;
    var x := elapsed / cooldown;
    MulDiv(elapsed, cooldown);
    MulUnits(cooldown);
    if x < 0.0 { MulStrict(x, 0.0, cooldown); }
    if d >= 1 && (d - 1) as real > x { MulStrict(x, (d - 1) as real, cooldown); }
  }

  /** No AIMD collapse: from rate r0 at time t0, after any mix of throttles, successes and
      acquires up to time t, the rate lies in its range and has lost at most one factor
      per started cooldown, however many 429s arrived. */
  lemma NoCollapse(cfg: ControllerConfig, s: Tuned, es: seq<Signal>, t0: real, t: real)
    requires ValidController(cfg) && RateInRange(cfg, s)
    requires InOrder(t0, es) && t0 <= t && (es != [] ==> Last(es).at <= t)
    ensures RateInRange(cfg, RunTuned(cfg, s, es))
    ensures 0.0 <= (t - t0) / cfg.cooldown
    ensures RunTuned(cfg, s, es).bucket.rate
         >= MaxReal(cfg.minRate, Mul(s.bucket.rate, Pow(cfg.factor, ((t - t0) / cfg.cooldown).Floor + 1)))
  {
    RateFloorByDecreases(cfg, s, es);
    DecreasesSpaced(cfg, s, es, t0);
    var d: int := Decreases(cfg, s, es);
    StartedCooldowns(d, t - t0, cfg.cooldown);
    var n := ((t - t0) / cfg.cooldown).Floor + 1;
    hide Mul;
    PowShrinks(cfg.factor, d, n);
    MulMono(Pow(cfg.factor, n), Pow(cfg.factor, d), s.bucket.rate);
    MulSwap(Pow(cfg.factor, n), s.bucket.rate, 1.0);
    MulSwap(Pow(cfg.factor, d), s.bucket.rate, 1.0);
  }

  function SuccessCount(es: seq<Signal>): nat {
    if es == [] then 0 else SuccessCount(Front(es)) + if Last(es).Succeeded? then 1 else 0
  }

  lemma Multiples(d: int, k: int)
    requires 1 <= k
    ensures d >= 1 ==> d * k >= k
    ensures d <= -1 ==> d * k <= -k
  {
  }

  lemma DivMod(n: nat, k: int, q: int, r: int)
    requires 1 <= k && n == q * k + r && 0 <= r < k
    ensures n / k == q && n % k == r
  {
    Multiples(n / k - q, k);
    assert (n / k - q) * k == r - n % k;
  }

  lemma NextOfStreak(n: nat, k: nat)
    requires 1 <= k
    ensures if n % k + 1 == k then (n + 1) / k == n / k + 1 && (n + 1) % k == 0
            else (n + 1) / k == n / k && (n + 1) % k == n % k + 1
  {
    if n % k + 1 == k {
      assert (n / k + 1) * k == n / k * k + k;
      DivMod(n + 1, k, n / k + 1, 0);
    } else {
      DivMod(n + 1, k, n / k, n % k + 1);
    }
  }

  lemma IncreaseStep(cfg: ControllerConfig, p: Tuned, e: Signal, r0: real, n: nat)
    requires ValidController(cfg) && 1 <= cfg.streak && !e.Throttled429? && cfg.minRate <= r0
    requires p.controller.successes == n % cfg.streak
    requires p.bucket.rate == MinReal(cfg.maxRate, r0 + Mul((n / cfg.streak) as real, cfg.step))
    ensures var n', q := if e.Succeeded? then n + 1 else n, StepTuned(cfg, p, e);
      && q.controller.successes == n' % cfg.streak
      && q.bucket.rate == MinReal(cfg.maxRate, r0 + Mul((n' / cfg.streak) as real, cfg.step))
  {
    hide Mul;
    NextOfStreak(n, cfg.streak);
    MulUnits(cfg.step);
    MulAdd((n / cfg.streak) as real, 1.0, cfg.step);
    MulMono(0.0, (n / cfg.streak) as real, cfg.step);
  }

  /** Additive increase: with no throttle in between, the rate goes up by one step per completed
      streak of successes and by nothing else, up to the maximum. */
  lemma {:induction false} AdditiveIncrease(cfg: ControllerConfig, s: Tuned, es: seq<Signal>)
    requires ValidController(cfg) && RateInRange(cfg, s) && 1 <= cfg.streak
    requires s.controller.successes < cfg.streak
    requires forall i :: 0 <= i < |es| ==> !es[i].Throttled429?
    ensures var n, s' := s.controller.successes + SuccessCount(es), RunTuned(cfg, s, es);
      && s'.controller.successes == n % cfg.streak
      && s'.bucket.rate == MinReal(cfg.maxRate, s.bucket.rate + Mul((n / cfg.streak) as real, cfg.step))
  {
    hide Mul, StepTuned;
    if es == [] {
      MulUnits(cfg.step);
      DivMod(s.controller.successes, cfg.streak, 0, s.controller.successes);
    } else {
      AdditiveIncrease(cfg, s, Front(es));
      var n, p := s.controller.successes + SuccessCount(Front(es)), RunTuned(cfg, s, Front(es));
      assert !Last(es).Throttled429? by { assert Last(es) == es[|es| - 1]; }
      IncreaseStep(cfg, p, Last(es), s.bucket.rate, n);
    }
  }

  lemma ThrottleStaysInRange(cfg: ControllerConfig, s: Tuned, t: real)
    requires ValidController(cfg) && RateInRange(cfg, s)
    ensures RateInRange(cfg, StepTuned(cfg, s, Throttled429(t)))
    ensures StepTuned(cfg, s, Throttled429(t)).controller.successes == 0
  {
    hide Mul;
    MulMono(cfg.factor, 1.0, s.bucket.rate);
    MulSwap(cfg.factor, s.bucket.rate, 1.0);
    MulUnits(s.bucket.rate);
  }

  /** A throttle starts the streak anew: after it, the rate is back to growing by one step per
      full streak of successes, and fewer successes than one streak leave it as it is. */
  lemma ThrottleResetsStreak(cfg: ControllerConfig, s: Tuned, t: real, more: seq<Signal>)
    requires ValidController(cfg) && RateInRange(cfg, s) && 1 <= cfg.streak
    requires forall i :: 0 <= i < |more| ==> !more[i].Throttled429?
    ensures var s' := StepTuned(cfg, s, Throttled429(t));
      var n, rate := SuccessCount(more), RunTuned(cfg, s', more).bucket.rate;
      && rate == MinReal(cfg.maxRate, s'.bucket.rate + Mul((n / cfg.streak) as real, cfg.step))
      && (n < cfg.streak ==> rate == s'.bucket.rate)
  {
    hide Mul, RunTuned;
    var s' := StepTuned(cfg, s, Throttled429(t));
    ThrottleStaysInRange(cfg, s, t);
    AdditiveIncrease(cfg, s', more);
    MulUnits(cfg.step);
    var n := SuccessCount(more);
    if n < cfg.streak { DivMod(n, cfg.streak, 0, n); }
  }

  // ---------------------------------------------------------------- which throttles slow down

  /** The times of the 429s of a run. */
  function ThrottleTimes(es: seq<Signal>): seq<real> {
    if es == [] then []
    else if Last(es).Throttled429? then ThrottleTimes(Front(es)) + [Last(es).at]
    else ThrottleTimes(Front(es))
  }

  /** The last of the 429s at ts to lower the rate, when the one before them was at `before`: the
      first does, and then each that is a cooldown after the last that did. */
  function LastLowering(cooldown: real, before: Option<real>, ts: seq<real>): Option<real> {
    if ts == [] then before
    else
      var u := LastLowering(cooldown, before, Front(ts));
      if u.None? || Last(ts) - u.value >= cooldown then Some(Last(ts)) else u
  }

  lemma {:induction false} LoweringsMatch(cfg: ControllerConfig, s: Tuned, es: seq<Signal>)
    ensures RunTuned(cfg, s, es).controller.lastDecrease
      == LastLowering(cfg.cooldown, s.controller.lastDecrease, ThrottleTimes(es))
  {
    if es == [] {
    } else {
      hide SetRate;
      LoweringsMatch(cfg, s, Front(es));
      var ts := ThrottleTimes(Front(es));
      assert Front(ts + [Last(es).at]) == ts && Last(ts + [Last(es).at]) == Last(es).at;
    }
  }

  lemma RunTunedNext(cfg: ControllerConfig, s: Tuned, es: seq<Signal>, e: Signal)
    ensures RunTuned(cfg, s, es + [e]) == StepTuned(cfg, RunTuned(cfg, s, es), e)
  {
    hide StepTuned;
    assert Front(es + [e]) == es && Last(es + [e]) == e;
  }

  /** What exactly a 429 does to the rate: it multiplies it by the factor, down to the minimum, if it
      is the first or comes a cooldown or more after the last that did; else it does nothing. */
  lemma LowersExactly(cfg: ControllerConfig, s: Tuned, es: seq<Signal>, t: real)
    requires ValidController(cfg)
    ensures var u := LastLowering(cfg.cooldown, s.controller.lastDecrease, ThrottleTimes(es));
      var rate := RunTuned(cfg, s, es).bucket.rate;
      RunTuned(cfg, s, es + [Throttled429(t)]).bucket.rate
        == if u.None? || t - u.value >= cfg.cooldown then MaxReal(cfg.minRate, Mul(rate, cfg.factor)) else rate
  {
    hide Mul, Refill, ThrottleTimes, LastLowering, RunTuned;
    LoweringsMatch(cfg, s, es);
    RunTunedNext(cfg, s, es, Throttled429(t));
  }

  /** No 429 of the run, nor the last lowering before it, lies within the cooldown before t. */
  predicate QuietBefore(cfg: ControllerConfig, s: Tuned, es: seq<Signal>, t: real) {
    && (s.controller.lastDecrease.None? || t - s.controller.lastDecrease.value >= cfg.cooldown)
    && forall i :: 0 <= i < |es| && es[i].Throttled429? ==> t - es[i].at >= cfg.cooldown
  }

  lemma {:induction false} QuietLowering(cfg: ControllerConfig, s: Tuned, es: seq<Signal>, t: real)
    requires QuietBefore(cfg, s, es, t)
    ensures var u := RunTuned(cfg, s, es).controller.lastDecrease; u.None? || t - u.value >= cfg.cooldown
  {
    if es == [] {
    } else {
      hide SetRate;
      assert QuietBefore(cfg, s, Front(es), t) by {
        assert forall i :: 0 <= i < |Front(es)| ==> Front(es)[i] == es[i];
      }
      QuietLowering(cfg, s, Front(es), t);
      assert Last(es) == es[|es| - 1];
    }
  }

  lemma {:induction false} StillLowered(cfg: ControllerConfig, s: Tuned, es: seq<Signal>, u: real, t: real)
    requires s.controller.lastDecrease == Some(u) && t - u < cfg.cooldown
    requires forall i :: 0 <= i < |es| ==> es[i].at <= t
    ensures RunTuned(cfg, s, es).controller.lastDecrease == Some(u)
  {
    if es == [] {
    } else {
      hide SetRate;
      assert forall i :: 0 <= i < |Front(es)| ==> Front(es)[i] == es[i];
      StillLowered(cfg, s, Front(es), u, t);
      assert Last(es) == es[|es| - 1];
    }
  }

  /** A 429 with no other in the cooldown before it lowers the rate; and until a cooldown has
      passed since, no other 429 does. */
  lemma QuietThrottleLowers(cfg: ControllerConfig, s: Tuned, es: seq<Signal>, u: real, more: seq<Signal>, t: real)
    requires ValidController(cfg) && QuietBefore(cfg, s, es, u) && t - u < cfg.cooldown
    requires forall i :: 0 <= i < |more| ==> more[i].at <= t
    ensures var before, after := RunTuned(cfg, s, es), RunTuned(cfg, s, es + [Throttled429(u)]);
      && after.bucket.rate == MaxReal(cfg.minRate, Mul(before.bucket.rate, cfg.factor))
      && RunTuned(cfg, after, more + [Throttled429(t)]).bucket.rate == RunTuned(cfg, after, more).bucket.rate
  {
    hide Mul, Refill, LastLowering, ThrottleTimes, RunTuned, QuietBefore;
    QuietLowering(cfg, s, es, u);
    RunTunedNext(cfg, s, es, Throttled429(u));
    var after := RunTuned(cfg, s, es + [Throttled429(u)]);
    StillLowered(cfg, after, more, u, t);
    RunTunedNext(cfg, after, more, Throttled429(t));
  }

  // ---------------------------------------------------------------- a job's own wiring

  /** The bucket and controller range that a job sets up for a limit of `rpm` requests a minute. */
  function JobRate(rpm: nat): real { rpm as real / 60.0 }
  function JobCapacity(rpm: nat): real { MaxReal(2.0, JobRate(rpm)) }
  function JobController(rpm: nat): ControllerConfig {
    ControllerConfig(MaxReal(0.05, JobRate(rpm) * 0.1), JobRate(rpm) * 1.5, 0.75, 0.5, 50, 5.0)
  }
  function JobBucket(rpm: nat, now: real): Bucket {
    Bucket(JobRate(rpm), JobCapacity(rpm), JobCapacity(rpm), now)
  }

  /** The wiring is in range, and a first 429 slows the job down, exactly from 3 requests a
      minute on; below that the first 429 speeds it up. */
  lemma WiringInRange(rpm: nat, now: real)
    ensures RateInRange(JobController(rpm), Tuned(FRESH_CONTROLLER, JobBucket(rpm, now))) <==> rpm >= 3
    ensures rpm >= 3 ==> ValidController(JobController(rpm))
    ensures OnThrottle(JobController(rpm), FRESH_CONTROLLER, JobBucket(rpm, now), now).bucket.rate <= JobRate(rpm)
       <==> rpm >= 3
  {
  }

  /** The numbers of the wiring: the limit as a rate, a burst of one second of it and at least 2, a
      range from a tenth of it and at least one in 20 seconds up to half more than it. */
  lemma WiringInNumbers(rpm: nat, now: real)
    ensures var b, ctl := JobBucket(rpm, now), JobController(rpm);
      && 60.0 * b.rate == rpm as real && b.tokens == b.capacity && b.last == now
      && (rpm >= 120 ==> b.capacity == b.rate) && (rpm <= 120 ==> b.capacity == 2.0)
      && (rpm >= 30 ==> 10.0 * ctl.minRate == b.rate) && (rpm <= 30 ==> 20.0 * ctl.minRate == 1.0)
      && 2.0 * ctl.maxRate == 3.0 * b.rate
      && ctl.factor == 0.75 && ctl.step == 0.5 && ctl.streak == 50 && ctl.cooldown == 5.0
  {
  }
}
