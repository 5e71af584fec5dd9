// core/retry.py: the classification table, the retry budget and the circuit breaker.

module Retry {
  import opened Models

  // ---------------------------------------------------------------- classification

  datatype Verdict = Verdict(kind: FailureClass, cap: nat)

  const DEFAULT_MAX_ATTEMPTS: nat := 5

  /** The verdict of one call: its class and how many tries that class allows in all. */
  function Classify(reply: Reply): (v: Verdict)
    // Only a well-formed 200 counts as success.
    ensures v.kind == Success <==> reply.Response? && reply.status == 200 && !reply.malformed
    // A class is tried more than once exactly when it is throttled or transient.
    ensures (v.kind == Throttled || v.kind == Transient) <==> v.cap > 1
    ensures 1 <= v.cap <= 8
    ensures v.kind == Throttled <==> v.cap > 5
    ensures v.kind == Throttled <==> reply.Response? && reply.status == 429
    ensures v.kind == Throttled ==> v.cap == 8
    // Every other verdict belongs to exactly these statuses.
    ensures v.kind == InvalidInput <==> reply.Response? && reply.status in {400, 413, 422}
    ensures v.kind == FatalAuth <==> reply.Response? && reply.status in {401, 403}
    ensures v.kind == FatalBilling <==> reply.Response? && reply.status == 402
    ensures v.kind == Transient && v.cap != 5 <==> reply.Response? && reply.status == 200 && reply.malformed
    ensures v.kind == Transient && v.cap != 5 ==> v.cap == 2
    // The two labels that only the worker may give never come out of the table.
    ensures v.kind != TransientExhausted && v.kind != Cancelled
  {
    match reply
    case TransportError => Verdict(Transient, DEFAULT_MAX_ATTEMPTS)
    case Response(status, malformed, _, _, _) =>
      if status == 200 then
        if malformed then Verdict(Transient, 2) else Verdict(Success, 1)
      else if status == 429 then Verdict(Throttled, 8)
      else if status == 408 || status == 500 || status == 502 || status == 503 || status == 504 then
        Verdict(Transient, 5)
      else if status == 400 || status == 422 || status == 413 then Verdict(InvalidInput, 1)
      else if status == 401 || status == 403 then Verdict(FatalAuth, 1)
      else if status == 402 then Verdict(FatalBilling, 1)
      else Verdict(Transient, DEFAULT_MAX_ATTEMPTS)
  }

  // ---------------------------------------------------------------- back-off

  function Pow2(k: nat): int { if k == 0 then 1 else 2 * Pow2(k - 1) }

  /** The upper end of the full-jitter interval for a retry after try number `attempt`. */
  function BackoffCeiling(base: real, cap: real, attempt: nat): real {
    MinReal(cap, base * (Pow2(attempt) as real))
  }

  lemma {:induction false} Pow2Positive(n: nat)
    ensures Pow2(n) >= 1
  {
    if n == 0 {
    } else {
      Pow2Positive(n - 1);
    }
  }

  /** The envelope starts at the base and doubles with every try until it meets its cap. */
  lemma BackoffDoubles(base: real, cap: real, attempt: nat)
    requires 0.0 <= base && 0.0 <= cap
    ensures BackoffCeiling(base, cap, 0) == MinReal(cap, base)
    ensures BackoffCeiling(base, cap, attempt + 1) == MinReal(cap, 2.0 * BackoffCeiling(base, cap, attempt))
  {
    var x := Pow2(attempt) as real;
    assert Pow2(attempt + 1) as real == 2.0 * x;
    assert base * (2.0 * x) == 2.0 * (base * x);
    assert 0.0 <= base * x by { Pow2Positive(attempt); MulMono(0.0, x, base); }
  }

  // ---------------------------------------------------------------- retry budget

  /** How many retries a job that has ingested `total` items may issue: a fifth, at least one. */
  function BudgetLimit(total: int): int { Max(1, total / 5) }

  lemma BudgetLimitGrows(a: int, b: int)
    requires a <= b
    ensures BudgetLimit(a) <= BudgetLimit(b)
  {
  }

  class RetryBudget {
    var totalItems: int
    var used: nat

    constructor (totalItems: int)
      ensures this.totalItems == totalItems && used == 0
    {
      this.totalItems := totalItems;
      used := 0;
    }

    method TryConsume() returns (ok: bool)
      modifies this`used
      // The first retry is free; from then on, each takes five items.
      ensures ok <==> old(used) == 0 || 5 * (old(used) + 1) <= totalItems
      ensures ok <==> old(used) < BudgetLimit(totalItems)
      ensures used == if ok then old(used) + 1 else old(used)
      // Once within the limit, always within the limit.
      ensures old(used) <= BudgetLimit(totalItems) ==> used <= BudgetLimit(totalItems)
    {
      if used >= BudgetLimit(totalItems) {
        return false;
      }
      used := used + 1;
      return true;
    }
  }

  // ---------------------------------------------------------------- circuit breaker

  datatype BreakerState = Closed | Open | HalfOpen

  datatype BreakerConfig = BreakerConfig(window: nat, threshold: real, cooldown: real, probeTimeout: real)

  /** `outcomes` is the bounded deque (true = failure), `probing` the probe-in-flight flag. */
  datatype Breaker = Breaker(state: BreakerState, outcomes: seq<bool>, openedAt: real, probing: bool)

  predicate ValidBreakerConfig(cfg: BreakerConfig) {
    1 <= cfg.window && 0.0 <= cfg.cooldown && 0.0 <= cfg.probeTimeout
  }

  const FRESH_BREAKER := Breaker(Closed, [], 0.0, false)

  function Failures(outcomes: seq<bool>): nat {
    if outcomes == [] then 0 else (if outcomes[0] then 1 else 0) + Failures(outcomes[1..])
  }

  predicate Trips(cfg: BreakerConfig, outcomes: seq<bool>) {
    && |outcomes| >= Min(cfg.window, 10)
    && |outcomes| > 0
    && Failures(outcomes) as real / |outcomes| as real > cfg.threshold
  }

  /** The moment after which a half-open probe counts as lost. */
  function StaleAfter(cfg: BreakerConfig, b: Breaker): real {
    b.openedAt + cfg.cooldown + cfg.probeTimeout
  }

  function Record(cfg: BreakerConfig, b: Breaker, failed: bool, now: real): Breaker {
    var b := b.(outcomes := LastN(b.outcomes + [failed], cfg.window));
    if b.state == HalfOpen then
      if failed then b.(probing := false, state := Open, openedAt := now)
      else b.(probing := false, state := Closed, outcomes := [])
    else if b.state == Closed && Trips(cfg, b.outcomes) then b.(state := Open, openedAt := now)
    else b
  }

  datatype Permit = Permit(breaker: Breaker, granted: bool)

  function Allow(cfg: BreakerConfig, b: Breaker, now: real): Permit {
    match b.state
    case Closed => Permit(b, true)
    case Open =>
      if now - b.openedAt >= cfg.cooldown then Permit(b.(state := HalfOpen, probing := true), true)
      else Permit(b, false)
    case HalfOpen =>
      var b := if b.probing && now > StaleAfter(cfg, b) then b.(probing := false) else b;
      Permit(b, !b.probing)
  }

  class CircuitBreaker {
    const cfg: BreakerConfig
    var outcomes: seq<bool>
    var state: BreakerState
    var openedAt: real
    var probing: bool

    ghost function View(): Breaker
      reads this
    {
      Breaker(state, outcomes, openedAt, probing)
    }

    constructor (cfg: BreakerConfig)
      ensures this.cfg == cfg && View() == FRESH_BREAKER
    {
      this.cfg := cfg;
      outcomes, state, openedAt, probing := [], Closed, 0.0, false;
    }

    method CountFailures() returns (n: nat)
      ensures n == Failures(outcomes)
    {
      n := 0;
      var i := |outcomes|;
      while i > 0
        invariant 0 <= i <= |outcomes|
        invariant n == Failures(outcomes[i..])
      {
        i := i - 1;
        if outcomes[i] { n := n + 1; }
        assert outcomes[i..][1..] == outcomes[i + 1..];
      }
      assert outcomes[0..] == outcomes;
    }

    /** Whether the failures in the window are too many. */
    method WindowTrips() returns (trips: bool)
      requires 1 <= cfg.window
      ensures trips == Trips(cfg, outcomes)
    {
      hide Failures;
      if |outcomes| < Min(cfg.window, 10) { return false; }
      var n := CountFailures();
      return n as real / |outcomes| as real > cfg.threshold;
    }

    method RecordOutcome(failed: bool, now: real)
      requires 1 <= cfg.window
      modifies this
      ensures View() == Record(cfg, old(View()), failed, now)
    {
      hide Trips;
      outcomes := outcomes + [failed];
      if |outcomes| > cfg.window { outcomes := outcomes[|outcomes| - cfg.window..]; }
      if state == HalfOpen {
        probing := false;
        if failed {
          state, openedAt := Open, now;
        } else {
          state, outcomes := Closed, [];
        }
        return;
      }
      if state == Closed {
        var trips := WindowTrips();
        if trips { state, openedAt := Open, now; }
      }
    }

    method AllowRequest(now: real) returns (granted: bool)
      modifies this
      ensures Permit(View(), granted) == Allow(cfg, old(View()), now)
    {
      if state == Open {
        if now - openedAt >= cfg.cooldown {
          state, probing := HalfOpen, true;
          return true;
        }
        return false;
      }
      if state == HalfOpen {
        var stale := now - openedAt > cfg.cooldown + cfg.probeTimeout;
        if probing && stale { probing := false; }
        return !probing;
      }
      return true;
    }
  }

  // ---------------------------------------------------------------- breaker runs

  datatype BreakerEvent = Recorded(failed: bool, at: real) | Asked(at: real)

  function StepBreaker(cfg: BreakerConfig, b: Breaker, e: BreakerEvent): Breaker {
    match e
    case Recorded(failed, at) => Record(cfg, b, failed, at)
    case Asked(at) => Allow(cfg, b, at).breaker
  }

  function RunBreaker(cfg: BreakerConfig, es: seq<BreakerEvent>): Breaker {
    if es == [] then FRESH_BREAKER
    else StepBreaker(cfg, RunBreaker(cfg, Front(es)), Last(es))
  }

  /** The unbounded log a reader would keep: every outcome recorded since the breaker last
      closed (or was created), in order. */
  function SinceClosing(cfg: BreakerConfig, es: seq<BreakerEvent>): seq<bool> {
    if es == [] then []
    else
      var log := SinceClosing(cfg, Front(es));
      match Last(es)
      case Asked(_) => log
      case Recorded(failed, _) =>
        if RunBreaker(cfg, Front(es)).state == HalfOpen && RunBreaker(cfg, es).state == Closed then []
        else log + [failed]
  }

  lemma LastNAppend<T>(s: seq<T>, x: T, n: nat)
    requires 1 <= n
    ensures LastN(LastN(s, n) + [x], n) == LastN(s + [x], n)
  {
  }

  lemma AllowKeepsWindow(cfg: BreakerConfig, b: Breaker, now: real)
    ensures Allow(cfg, b, now).breaker.outcomes == b.outcomes
    ensures Allow(cfg, b, now).breaker.state == Closed <==> b.state == Closed
  {
  }

  lemma RecordKeepsWindow(cfg: BreakerConfig, b: Breaker, failed: bool, now: real)
    requires ValidBreakerConfig(cfg)
    ensures var after := Record(cfg, b, failed, now);
            && (after.state == Closed ==> !Trips(cfg, after.outcomes))
            && after.outcomes == if b.state == HalfOpen && after.state == Closed then []
                                 else LastN(b.outcomes + [failed], cfg.window)
  {
  }

  /** The bounded deque is always the last `window` outcomes of the unbounded log, and a
      closed breaker is one whose window does not trip. */
  lemma {:induction false} WindowRefinement(cfg: BreakerConfig, es: seq<BreakerEvent>)
    requires ValidBreakerConfig(cfg)
    ensures RunBreaker(cfg, es).outcomes == LastN(SinceClosing(cfg, es), cfg.window)
    ensures RunBreaker(cfg, es).state == Closed ==> !Trips(cfg, LastN(SinceClosing(cfg, es), cfg.window))
  {
    if es == [] {
    } else {
      WindowRefinement(cfg, Front(es));
      var b, log := RunBreaker(cfg, Front(es)), SinceClosing(cfg, Front(es));
      match Last(es)
      case Asked(at) => AllowKeepsWindow(cfg, b, at);
      case Recorded(failed, at) =>
        LastNAppend(log, failed, cfg.window);
        RecordKeepsWindow(cfg, b, failed, at);
    }
  }

  /** From closed, one more outcome opens the breaker exactly when the window it completes trips. */
  lemma LeavesClosedExactlyOnTrip(cfg: BreakerConfig, es: seq<BreakerEvent>, e: BreakerEvent)
    requires ValidBreakerConfig(cfg) && RunBreaker(cfg, es).state == Closed
    ensures RunBreaker(cfg, es + [e]).state != Closed
      <==> e.Recorded? && Trips(cfg, LastN(SinceClosing(cfg, es) + [e.failed], cfg.window))
  {
    WindowRefinement(cfg, es);
    assert Front(es + [e]) == es && Last(es + [e]) == e;
    if e.Recorded? { LastNAppend(SinceClosing(cfg, es), e.failed, cfg.window); }
  }

  /** Where the window shows a failure. */
  function FailedAt(w: seq<bool>): set<int> { set i | 0 <= i < |w| && w[i] }

  lemma {:induction false} FailuresAppended(w: seq<bool>, x: bool)
    ensures Failures(w + [x]) == Failures(w) + (if x then 1 else 0)
  {
    if w == [] {
      assert (w + [x])[1..] == [];
    } else {
      assert (w + [x])[1..] == w[1..] + [x];
      FailuresAppended(w[1..], x);
    }
  }

  lemma FailedAtAppended(w: seq<bool>, x: bool)
    ensures |FailedAt(w + [x])| == |FailedAt(w)| + (if x then 1 else 0)
  {
    var ws := w + [x];
    assert |w| !in FailedAt(w);
    forall i ensures i in FailedAt(ws) <==> i in FailedAt(w) || (x && i == |w|) {
      if 0 <= i < |w| { assert ws[i] == w[i]; }
    }
    if x { assert FailedAt(ws) == FailedAt(w) + {|w|}; } else { assert FailedAt(ws) == FailedAt(w); }
  }

  lemma {:induction false} FailuresAreCounted(w: seq<bool>)
    ensures Failures(w) == |FailedAt(w)|
  {
    if w == [] {
      assert FailedAt(w) == {};
    } else {
      hide Failures, FailedAt;
      assert w == Front(w) + [Last(w)];
      FailuresAreCounted(Front(w));
      FailuresAppended(Front(w), Last(w));
      FailedAtAppended(Front(w), Last(w));
    }
  }

  lemma MulMeans(a: real, b: real)
    ensures Mul(a, b) == a * b
  {
  }

  lemma ShareAbove(n: nat, k: nat, threshold: real)
    requires k > 0
    ensures n as real / k as real > threshold <==> n as real > threshold * k as real
  {
    hide Mul;
    var share := n as real / k as real;
    MulDiv(n as real, k as real);
    if share > threshold { MulStrict(threshold, share, k as real); }
    if share <= threshold { MulMono(share, threshold, k as real); }
    assert Mul(threshold, k as real) == threshold * k as real by { MulMeans(threshold, k as real); }
  }

  lemma TripsMeans(cfg: BreakerConfig, w: seq<bool>)
    requires ValidBreakerConfig(cfg)
    ensures Trips(cfg, w)
      <==> |w| >= Min(cfg.window, 10) && |FailedAt(w)| as real > cfg.threshold * |w| as real
  {
    hide Failures, FailedAt;
    FailuresAreCounted(w);
    if |w| > 0 { ShareAbove(Failures(w), |w|, cfg.threshold); }
  }

  lemma FailedAtMeans(w: seq<bool>)
    ensures FailedAt(w) == set i | 0 <= i < |w| && w[i]
  {
  }

  lemma ClosedOrOpen(cfg: BreakerConfig, es: seq<BreakerEvent>, failed: bool, at: real)
    requires RunBreaker(cfg, es).state == Closed
    ensures var b := RunBreaker(cfg, es + [Recorded(failed, at)]); b.state == Open || b.state == Closed
  {
    hide Trips, LastN;
    assert Front(es + [Recorded(failed, at)]) == es && Last(es + [Recorded(failed, at)]) == Recorded(failed, at);
  }

  /** When exactly a closed breaker opens: when the last `window` outcomes since it closed, the new
      one included, are at least min(window, 10), and the failures among them are more than the
      threshold's share of them. */
  lemma OpensExactly(cfg: BreakerConfig, es: seq<BreakerEvent>, failed: bool, at: real)
    requires ValidBreakerConfig(cfg) && RunBreaker(cfg, es).state == Closed
    ensures var w := LastN(SinceClosing(cfg, es) + [failed], cfg.window);
      var s' := RunBreaker(cfg, es + [Recorded(failed, at)]).state;
      && (s' == Open || s' == Closed)
      && (s' == Open <==>
            && |w| >= Min(cfg.window, 10)
            && |set i | 0 <= i < |w| && w[i]| as real > cfg.threshold * |w| as real)
  {
    hide Trips, LastN, RunBreaker, SinceClosing, Failures, FailedAt;
    var w := LastN(SinceClosing(cfg, es) + [failed], cfg.window);
    LeavesClosedExactlyOnTrip(cfg, es, Recorded(failed, at));
    ClosedOrOpen(cfg, es, failed, at);
    TripsMeans(cfg, w);
    FailedAtMeans(w);
  }

  /** The answers to a series of requests with no outcome recorded in between. */
  function Answers(cfg: BreakerConfig, b: Breaker, asks: seq<real>): seq<bool>
    ensures |Answers(cfg, b, asks)| == |asks|
    decreases asks
  {
    if asks == [] then []
    else
      var p := Allow(cfg, b, asks[0]);
      [p.granted] + Answers(cfg, p.breaker, asks[1..])
  }

  lemma {:induction false} AllAdmitted(cfg: BreakerConfig, b: Breaker, asks: seq<real>)
    requires b.state == HalfOpen && !b.probing
    ensures forall k :: 0 <= k < |asks| ==> Answers(cfg, b, asks)[k]
  {
    if asks == [] {
    } else {
      AllAdmitted(cfg, b, asks[1..]);
    }
  }

  /** "Half-open lets exactly one probe through" is not true without end: while the probe that
      opened the half-open epoch has not reported, a request is admitted if and only if
      some request up to and including it came after the probe went stale. */
  lemma {:induction false} ProbeAdmission(cfg: BreakerConfig, b: Breaker, asks: seq<real>, k: nat)
    requires b.state == HalfOpen && b.probing && k < |asks|
    ensures Answers(cfg, b, asks)[k] <==> exists j :: 0 <= j <= k && asks[j] > StaleAfter(cfg, b)
    decreases asks
  {
    if asks[0] > StaleAfter(cfg, b) {
      AllAdmitted(cfg, b.(probing := false), asks[1..]);
      assert Answers(cfg, b, asks)[k];
    } else if k > 0 {
      ProbeAdmission(cfg, b, asks[1..], k - 1);
      assert Answers(cfg, b, asks)[k] == Answers(cfg, b, asks[1..])[k - 1];
      assert forall j :: 1 <= j <= k ==> asks[j] == asks[1..][j - 1];
      if exists j :: 0 <= j <= k && asks[j] > StaleAfter(cfg, b) {
        var j :| 0 <= j <= k && asks[j] > StaleAfter(cfg, b);
        assert asks[1..][j - 1] > StaleAfter(cfg, b);
      }
    }
  }

  /** A half-open epoch from its beginning. An open breaker whose cooldown is over admits the first
      request, which becomes the probe; while that has not reported, a later one is admitted if
      and only if one so far came more than the probe timeout after the cooldown. */
  lemma ProbeEpoch(cfg: BreakerConfig, b: Breaker, asks: seq<real>, k: nat)
    requires b.state == Open && asks != [] && asks[0] - b.openedAt >= cfg.cooldown && k < |asks|
    ensures Answers(cfg, b, asks)[0]
    ensures k > 0 ==> (Answers(cfg, b, asks)[k]
      <==> exists j :: 1 <= j <= k && asks[j] > b.openedAt + cfg.cooldown + cfg.probeTimeout)
  {
    if k > 0 {
      var b', rest := Allow(cfg, b, asks[0]).breaker, asks[1..];
      ProbeAdmission(cfg, b', rest, k - 1);
      assert forall j :: 1 <= j <= k ==> asks[j] == rest[j - 1];
      if j :| 1 <= j <= k && asks[j] > b.openedAt + cfg.cooldown + cfg.probeTimeout {
        assert rest[j - 1] > StaleAfter(cfg, b');
      }
    }
  }

  /** A concrete run in which two requests pass in one half-open epoch. */
  lemma SecondProbeExample(cfg: BreakerConfig, b: Breaker)
    requires b.state == HalfOpen && b.probing
    ensures var late := StaleAfter(cfg, b) + 1.0;
            Answers(cfg, b, [late, late]) == [true, true]
  {
    var late := StaleAfter(cfg, b) + 1.0;
    ProbeAdmission(cfg, b, [late, late], 0);
    ProbeAdmission(cfg, b, [late, late], 1);
  }

  /** The breaker cannot refuse for ever: whatever happened before, a request that comes
      later than the cooldown plus the probe timeout after the last opening is admitted. */
  lemma LateRequestAdmitted(cfg: BreakerConfig, b: Breaker, now: real)
    requires ValidBreakerConfig(cfg) && now > StaleAfter(cfg, b)
    ensures Allow(cfg, b, now).granted
  {
  }

  lemma {:induction false} StaysOpen(cfg: BreakerConfig, es: seq<BreakerEvent>, more: seq<BreakerEvent>)
    requires RunBreaker(cfg, es).state == Open
    requires forall i :: 0 <= i < |more| && more[i].Asked? ==> more[i].at - RunBreaker(cfg, es).openedAt < cfg.cooldown
    ensures var b, b' := RunBreaker(cfg, es), RunBreaker(cfg, es + more);
      b'.state == Open && b'.openedAt == b.openedAt
    decreases |more|
  {
    if more == [] {
      assert es + more == es;
    } else {
      StaysOpen(cfg, es, Front(more));
      assert Front(es + more) == es + Front(more) && Last(es + more) == Last(more);
      assert Last(more) == more[|more| - 1];
    }
  }

  /** A breaker that an outcome has just opened refuses every request until its cooldown is over,
      whatever late outcomes are recorded meanwhile, and admits the first one after that. */
  lemma RefusesForCooldown(
    cfg: BreakerConfig, es: seq<BreakerEvent>, e: BreakerEvent, more: seq<BreakerEvent>, now: real)
    requires RunBreaker(cfg, es).state != Open && RunBreaker(cfg, es + [e]).state == Open
    requires forall i :: 0 <= i < |more| && more[i].Asked? ==> more[i].at - e.at < cfg.cooldown
    ensures Allow(cfg, RunBreaker(cfg, es + [e] + more), now).granted <==> now - e.at >= cfg.cooldown
  {
    assert Front(es + [e]) == es && Last(es + [e]) == e;
    assert RunBreaker(cfg, es + [e]).openedAt == e.at;
    StaysOpen(cfg, es + [e], more);
  }
}
