// providers/mock.py: the sliding-window request quota, kept as a pruned deque of timestamps.

module Quota {
  import opened Models
  import opened Retry
  import opened RateLimit

  /** Drops from the left every timestamp before `start`, stopping at the first that is not. */
  function Prune(stamps: seq<real>, start: real): seq<real> {
    if stamps != [] && stamps[0] < start then Prune(stamps[1..], start) else stamps
  }

  predicate Sorted(ts: seq<real>) {
    forall i, j :: 0 <= i < j < |ts| ==> ts[i] <= ts[j]
  }

  /** The reference meaning of "requests in the last W seconds": the entries of the whole
      history that lie in the closed window [lo, hi]. */
  function InWindow(history: seq<real>, lo: real, hi: real): seq<real> {
    if history == [] then []
    else if lo <= Last(history) <= hi then InWindow(Front(history), lo, hi) + [Last(history)]
    else InWindow(Front(history), lo, hi)
  }

  lemma {:induction false} InWindowCounts(history: seq<real>, lo: real, hi: real)
    ensures |InWindow(history, lo, hi)| == CountIn(history, lo, hi)
  {
    if history == [] {
    } else {
      InWindowCounts(Front(history), lo, hi);
    }
  }

  lemma {:induction false} NothingInWindow(history: seq<real>, lo: real, hi: real)
    requires forall i :: 0 <= i < |history| ==> history[i] < lo
    ensures InWindow(history, lo, hi) == []
  {
    if history == [] {
    } else {
      NothingInWindow(Front(history), lo, hi);
    }
  }

  /** A history whose first k entries are before the window and whose others are in it. */
  lemma {:induction false} WindowOfSplit(history: seq<real>, k: nat, lo: real, hi: real)
    requires k <= |history|
    requires forall i :: 0 <= i < k ==> history[i] < lo
    requires forall i :: k <= i < |history| ==> lo <= history[i] <= hi
    ensures InWindow(history, lo, hi) == history[k..]
  {
    if |history| == k {
      NothingInWindow(history, lo, hi);
    } else {
      WindowOfSplit(Front(history), k, lo, hi);
      assert lo <= history[|history| - 1] <= hi;
      assert Front(history)[k..] + [Last(history)] == history[k..];
    }
  }

  /** Pruning a suffix of a sorted history leaves exactly the entries of the window ending now. */
  lemma {:induction false} PruneSuffix(h: seq<real>, d: nat, lo: real, now: real) returns (k: nat)
    requires Sorted(h) && d <= |h| && (h != [] ==> Last(h) <= now)
    requires forall i :: 0 <= i < d ==> h[i] < lo
    ensures d <= k <= |h| && (forall i :: 0 <= i < k ==> h[i] < lo)
    ensures Prune(h[d..], lo) == h[k..] == InWindow(h, lo, now)
    ensures k < |h| ==> lo <= h[k]
    decreases |h| - d
  {
    if d < |h| && h[d] < lo {
      assert h[d..][1..] == h[d + 1..];
      k := PruneSuffix(h, d + 1, lo, now);
    } else {
      k := d;
      WindowOfSplit(h, d, lo, now);
    }
  }

  // ---------------------------------------------------------------- the quota over a run

  /** `stamps` is the deque; `accepted` is the whole history of accepted calls it stands for. */
  datatype Ledger = Ledger(stamps: seq<real>, accepted: seq<real>)

  const FRESH_LEDGER := Ledger([], [])

  /** One call against the ceiling: prune, then reject a full window or append. */
  function Call(l: Ledger, window: real, ceiling: nat, now: real): Ledger {
    var kept := Prune(l.stamps, now - window);
    if |kept| >= ceiling then l.(stamps := kept) else Ledger(kept + [now], l.accepted + [now])
  }

  predicate Admits(l: Ledger, window: real, ceiling: nat, now: real) {
    |Prune(l.stamps, now - window)| < ceiling
  }

  /** The deque is a suffix of the history; what it has dropped is older than any window to come. */
  ghost predicate Faithful(l: Ledger, window: real, now: real) {
    && Sorted(l.accepted)
    && |l.stamps| <= |l.accepted|
    && l.stamps == l.accepted[|l.accepted| - |l.stamps|..]
    && (l.accepted != [] ==> Last(l.accepted) <= now)
    && (forall i :: 0 <= i < |l.accepted| - |l.stamps| ==> l.accepted[i] < now - window)
  }

  lemma FaithfulLater(l: Ledger, window: real, now: real, later: real)
    requires Faithful(l, window, now) && now <= later
    ensures Faithful(l, window, later)
  {
  }

  /** The pruned deque is exactly the accepted calls of the closed window ending now. */
  lemma PrunedDequeIsWindow(l: Ledger, window: real, now: real)
    requires Faithful(l, window, now)
    ensures Prune(l.stamps, now - window) == InWindow(l.accepted, now - window, now)
    ensures Faithful(l.(stamps := Prune(l.stamps, now - window)), window, now)
  {
    var k := PruneSuffix(l.accepted, |l.accepted| - |l.stamps|, now - window, now);
    assert |l.accepted[k..]| == |l.accepted| - k;
  }

  lemma OldestKept(l: Ledger, window: real, now: real)
    requires Faithful(l, window, now)
    ensures var kept := Prune(l.stamps, now - window); kept != [] ==> now - window <= kept[0]
  {
    var k := PruneSuffix(l.accepted, |l.accepted| - |l.stamps|, now - window, now);
    hide *;
  }

  lemma NothingLater(l: Ledger, window: real, now: real)
    requires Faithful(l, window, now)
    ensures forall i :: 0 <= i < |l.accepted| ==> l.accepted[i] <= now
  {
    forall i | 0 <= i < |l.accepted| ensures l.accepted[i] <= now {
      assert l.accepted[i] <= l.accepted[|l.accepted| - 1];
    }
  }

  lemma AppendFaithful(l: Ledger, window: real, now: real)
    requires Faithful(l, window, now)
    ensures Faithful(Ledger(l.stamps + [now], l.accepted + [now]), window, now)
  {
    var d := |l.accepted| - |l.stamps|;
    assert l.accepted[d..] + [now] == (l.accepted + [now])[d..];
    NothingLater(l, window, now);
  }

  /** A call is accepted exactly when fewer than `ceiling` accepted calls lie in the closed
      window ending at it, and accepting or rejecting keeps the deque faithful. */
  lemma CallRefinesHistory(l: Ledger, window: real, ceiling: nat, now: real)
    requires Faithful(l, window, now)
    ensures Admits(l, window, ceiling, now) <==> CountIn(l.accepted, now - window, now) < ceiling
    ensures Faithful(Call(l, window, ceiling, now), window, now)
  {
    hide Prune, InWindow, CountIn;
    PrunedDequeIsWindow(l, window, now);
    InWindowCounts(l.accepted, now - window, now);
    hide Faithful;
    AppendFaithful(l.(stamps := Prune(l.stamps, now - window)), window, now);
  }

  function RunCalls(window: real, ceiling: nat, calls: seq<real>): Ledger {
    if calls == [] then FRESH_LEDGER
    else Call(RunCalls(window, ceiling, Front(calls)), window, ceiling, Last(calls))
  }

  lemma {:induction false} RunFaithful(window: real, ceiling: nat, calls: seq<real>, now: real)
    requires Sorted(calls) && (calls != [] ==> Last(calls) <= now)
    ensures Faithful(RunCalls(window, ceiling, calls), window, now)
  {
    if calls == [] {
    } else {
      RunFaithful(window, ceiling, Front(calls), Last(calls));
      CallRefinesHistory(RunCalls(window, ceiling, Front(calls)), window, ceiling, Last(calls));
      FaithfulLater(RunCalls(window, ceiling, calls), window, Last(calls), now);
    }
  }

  /** Entries up to `hi` counted in [s, e] are also counted in a window [lo, hi] reaching further back. */
  lemma {:induction false} CountInMono(ts: seq<real>, s: real, e: real, lo: real, hi: real)
    requires lo <= s && forall i :: 0 <= i < |ts| ==> ts[i] <= hi
    ensures CountIn(ts, s, e) <= CountIn(ts, lo, hi)
  {
    if ts == [] {
    } else {
      CountInMono(Front(ts), s, e, lo, hi);
    }
  }

  lemma CallKeepsQuota(l: Ledger, window: real, ceiling: nat, now: real, from: real)
    requires Faithful(l, window, now) && CountIn(l.accepted, from, from + window) <= ceiling
    ensures CountIn(Call(l, window, ceiling, now).accepted, from, from + window) <= ceiling
  {
    hide Prune, InWindow, CountIn;
    CallRefinesHistory(l, window, ceiling, now);
    CountInAppend(l.accepted, now, from, from + window);
    if from <= now <= from + window {
      NothingLater(l, window, now);
      hide Faithful;
      CountInMono(l.accepted, from, from + window, now - window, now);
    }
  }

  /** The quota the upstream promises: over any sequence of calls, no closed window of
      `window` seconds, wherever it starts, ever holds more than `ceiling` accepted calls. */
  lemma {:induction false} NoWindowOverCeiling(window: real, ceiling: nat, calls: seq<real>, from: real)
    requires Sorted(calls)
    ensures CountIn(RunCalls(window, ceiling, calls).accepted, from, from + window) <= ceiling
  {
    if calls == [] {
    } else {
      NoWindowOverCeiling(window, ceiling, Front(calls), from);
      RunFaithful(window, ceiling, Front(calls), Last(calls));
      CallKeepsQuota(RunCalls(window, ceiling, Front(calls)), window, ceiling, Last(calls), from);
    }
  }

  // ---------------------------------------------------------------- the provider object

  datatype ProviderConfig = ProviderConfig(
    ceiling: Option<nat>, window: real, failAfter: Option<nat>, fatalStatus: int)

  /** The random faults a call may draw once it is past the quota; the draw itself is arbitrary. */
  datatype Fault = NoFault | Crash | Timeout | Throttle | ServerError | BadRequest | Garbled

  function Drawn(fault: Fault, now: real, inputTokens: int, outputTokens: int): Reply {
    match fault
    case Crash | Timeout => TransportError
    case Throttle => Response(429, false, 0, 0, (now + 1.0).Floor as real)
    case ServerError => Response(500, false, 0, 0, 0.0)
    case BadRequest => Response(400, false, 0, 0, 0.0)
    case Garbled => Response(200, true, inputTokens, outputTokens, 0.0)
    case NoFault => Response(200, false, inputTokens, outputTokens, 0.0)
  }

  /** What a fault is to the one who called: how it is classified, and what is billed. */
  lemma DrawnMeans(fault: Fault, now: real, inputTokens: int, outputTokens: int)
    ensures var reply := Drawn(fault, now, inputTokens, outputTokens);
      var v := Classify(reply);
      && (v.kind == Success <==> fault == NoFault)
      && (v.kind == Throttled <==> fault == Throttle)
      && (v.kind == InvalidInput <==> fault == BadRequest)
      && (v.kind == Transient <==> fault == Crash || fault == Timeout || fault == ServerError || fault == Garbled)
      && (v.cap == 2 <==> fault == Garbled)
      && (reply.TransportError? <==> fault == Crash || fault == Timeout)
      && (fault == NoFault ==> reply.inputTokens == inputTokens && reply.outputTokens == outputTokens)
      && (fault == Throttle ==> now < reply.resetEpoch <= now + 1.0)
  {
  }

  class MockProvider {
    const cfg: ProviderConfig
    var callCount: nat
    var stamps: seq<real>
    ghost var accepted: seq<real>

    ghost function View(): Ledger
      reads this
    {
      Ledger(stamps, accepted)
    }

    predicate Exhausted()
      reads this
    {
      cfg.failAfter.Some? && callCount > cfg.failAfter.value
    }

    constructor (cfg: ProviderConfig)
      ensures this.cfg == cfg && View() == FRESH_LEDGER && callCount == 0
    {
      this.cfg := cfg;
      callCount, stamps, accepted := 0, [], [];
    }

    method PruneWindow(now: real)
      modifies this`stamps
      ensures stamps == Prune(old(stamps), now - cfg.window)
    {
      var windowStart := now - cfg.window;
      while stamps != [] && stamps[0] < windowStart
        invariant Prune(stamps, windowStart) == Prune(old(stamps), windowStart)
        decreases |stamps|
      {
        stamps := stamps[1..];
      }
    }

    /** The quota branch of a call: a refusal, or None once the call is on the deque. A zero
        ceiling makes the source index an empty deque; the worker sees that exception as a
        transport error. */
    method CheckCeiling(ceiling: nat, now: real) returns (refusal: Option<Reply>)
      modifies this`stamps, this`accepted
      ensures View() == Call(old(View()), cfg.window, ceiling, now)
      ensures refusal.None? <==> Admits(old(View()), cfg.window, ceiling, now)
      ensures refusal.Some? ==> refusal.value.TransportError? || refusal.value.status == 429
      ensures refusal.Some? && refusal.value.TransportError? ==> ceiling == 0
      // On a clock that has not stepped back, the deque decides as the whole history would, and a
      // refusal's advertised reset second is not over before the call.
      ensures old(Faithful(View(), cfg.window, now)) ==>
        && Faithful(View(), cfg.window, now)
        && (refusal.None? <==> CountIn(old(accepted), now - cfg.window, now) < ceiling)
        && (refusal.Some? && refusal.value.Response? ==>
             && refusal.value.resetEpoch > now - 1.0
             && var held := InWindow(old(accepted), now - cfg.window, now);
                held != [] && refusal.value.resetEpoch == (held[0] + cfg.window).Floor as real)
    {
      hide Faithful, Prune, CountIn;
      ghost var faithful := Faithful(View(), cfg.window, now);
      if faithful {
        PrunedDequeIsWindow(View(), cfg.window, now);
        CallRefinesHistory(View(), cfg.window, ceiling, now);
        OldestKept(View(), cfg.window, now);
      }
      PruneWindow(now);
      if |stamps| >= ceiling {
        if stamps == [] { return Some(TransportError); }
        var resetAt := stamps[0] + cfg.window;
        return Some(Response(429, false, 0, 0, resetAt.Floor as real));
      }
      stamps := stamps + [now];
      accepted := accepted + [now];
      return None;
    }

    /** The start of a call. With `simulate_delay` the call then sleeps, and others may come in
        between, before it goes on with the clock reading it took at its start. */
    method BeginCall()
      modifies this`callCount
      ensures callCount == old(callCount) + 1
    {
      callCount := callCount + 1;
    }

    /** The rest of a call that read the clock at `now`: the injected fatal status, then the quota,
        then whatever fault was drawn. */
    method FinishCall(now: real, fault: Fault, inputTokens: int, outputTokens: int) returns (reply: Reply)
      modifies this`stamps, this`accepted
      ensures old(Faithful(View(), cfg.window, now)) ==> Faithful(View(), cfg.window, now)
      ensures Exhausted() ==>
        View() == old(View()) && reply == Response(cfg.fatalStatus, false, 0, 0, 0.0)
      ensures !Exhausted() ==>
        View() == if cfg.ceiling.None? then old(View())
                  else Call(old(View()), cfg.window, cfg.ceiling.value, now)
      // A call is answered from the fault draw exactly when its window is not full.
      ensures !Exhausted() && (cfg.ceiling.Some? ==> Admits(old(View()), cfg.window, cfg.ceiling.value, now)) ==>
        reply == Drawn(fault, now, inputTokens, outputTokens)
      ensures !Exhausted() && cfg.ceiling.Some? && !Admits(old(View()), cfg.window, cfg.ceiling.value, now) ==>
        reply.TransportError? || (reply.Response? && reply.status == 429)
      ensures old(Faithful(View(), cfg.window, now)) && cfg.ceiling.Some? ==>
        (Admits(old(View()), cfg.window, cfg.ceiling.value, now)
         <==> CountIn(old(accepted), now - cfg.window, now) < cfg.ceiling.value)
    {
      hide Faithful, Prune, CountIn, Admits, Call;
      if cfg.ceiling.Some? && Faithful(View(), cfg.window, now) {
        CallRefinesHistory(View(), cfg.window, cfg.ceiling.value, now);
      }
      if Exhausted() {
        return Response(cfg.fatalStatus, false, 0, 0, 0.0);
      }
      if cfg.ceiling.Some? {
        var refusal := CheckCeiling(cfg.ceiling.value, now);
        if refusal.Some? { return refusal.value; }
      }
      return Drawn(fault, now, inputTokens, outputTokens);
    }

    /** One call with `simulate_delay` off. The first `failAfter` calls are served, and every later
        one gets the injected status. */
    method Complete(now: real, fault: Fault, inputTokens: int, outputTokens: int) returns (reply: Reply)
      modifies this
      ensures callCount == old(callCount) + 1
      ensures old(Faithful(View(), cfg.window, now)) ==> Faithful(View(), cfg.window, now)
      ensures Exhausted() ==>
        View() == old(View()) && reply == Response(cfg.fatalStatus, false, 0, 0, 0.0)
      ensures !Exhausted() ==>
        View() == if cfg.ceiling.None? then old(View())
                  else Call(old(View()), cfg.window, cfg.ceiling.value, now)
      ensures !Exhausted() && (cfg.ceiling.Some? ==> Admits(old(View()), cfg.window, cfg.ceiling.value, now)) ==>
        reply == Drawn(fault, now, inputTokens, outputTokens)
      ensures !Exhausted() && cfg.ceiling.Some? && !Admits(old(View()), cfg.window, cfg.ceiling.value, now) ==>
        reply.TransportError? || (reply.Response? && reply.status == 429)
      ensures old(Faithful(View(), cfg.window, now)) && cfg.ceiling.Some? ==>
        (Admits(old(View()), cfg.window, cfg.ceiling.value, now)
         <==> CountIn(old(accepted), now - cfg.window, now) < cfg.ceiling.value)
      ensures cfg.failAfter.Some? && old(callCount) >= cfg.failAfter.value ==>
        View() == old(View()) && reply == Response(cfg.fatalStatus, false, 0, 0, 0.0)
      ensures (cfg.failAfter.None? || old(callCount) < cfg.failAfter.value) && cfg.ceiling.None? ==>
        reply == Drawn(fault, now, inputTokens, outputTokens)
    {
      hide Faithful, Prune, CountIn, Admits, Call;
      BeginCall();
      reply := FinishCall(now, fault, inputTokens, outputTokens);
    }
  }
}
