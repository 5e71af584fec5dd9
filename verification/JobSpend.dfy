// The per-job spend guard: how far past the cap a job can go, and where the guard is blind.

module JobSpend {
  import opened Models
  import opened Retry
  import opened RateLimit
  import opened Job
  import opened JobLedger
  import opened JobCustody
  import opened JobRuns
  import opened JobStopping

  function SpentBy(c: Config, s: State): real { Cost(c, s.books.inputTokens, s.books.outputTokens) }

  /** An answer that the job is billed for: a success, and nothing else. */
  predicate BilledAnswer(e: Event) { e.Answer? && Classify(e.reply).kind == Success }

  function PriceOf(c: Config, e: Event): real
    requires BilledAnswer(e)
  {
    Cost(c, e.reply.inputTokens, e.reply.outputTokens)
  }

  /** Every billed answer of the run costs between nothing and m. */
  predicate PricedWithin(c: Config, es: seq<Event>, m: real) {
    forall i :: 0 <= i < |es| && BilledAnswer(es[i]) ==> 0.0 <= PriceOf(c, es[i]) <= m
  }

  /** No item fails before the job is aborted. */
  ghost predicate CleanUntilAbort(c: Config, es: seq<Event>)
    requires Feasible(c, Init(c), es)
    decreases |es|
  {
    && (!Exec(c, Init(c), es).flags.aborted ==> Exec(c, Init(c), es).counts.failed == 0)
    && (es != [] ==> CleanUntilAbort(c, Front(es)))
  }

  /** Calls that may still turn into spending. */
  function AtRisk(s: State): int { TallyOf(s.workers).acquire + TallyOf(s.workers).calling }

  ghost predicate SpendInv(c: Config, s: State, m: real) {
    if s.flags.aborted then
      SpentBy(c, s) + Mul(AtRisk(s) as real, m) < c.spendCap + Mul((49 + c.concurrency) as real, m)
    else
      s.counts.failed == 0 && SpentBy(c, s) < c.spendCap + Mul((s.counts.succeeded % 50) as real, m)
  }

  lemma CostAdds(c: Config, i: int, o: int, j: int, p: int)
    ensures Cost(c, i + j, o + p) == Cost(c, i, o) + Cost(c, j, p)
  {
    hide Mul;
    MulAdd(i as real / 1000000.0, j as real / 1000000.0, c.inputPrice);
    MulAdd(o as real / 1000000.0, p as real / 1000000.0, c.outputPrice);
    assert (i + j) as real / 1000000.0 == i as real / 1000000.0 + j as real / 1000000.0;
    assert (o + p) as real / 1000000.0 == o as real / 1000000.0 + p as real / 1000000.0;
  }

  /** The price list is per million tokens, input and output apart. */
  lemma CostIsPerMillion(c: Config, inputs: int, outputs: int)
    ensures Mul(1000000.0, Cost(c, inputs, outputs))
      == Mul(inputs as real, c.inputPrice) + Mul(outputs as real, c.outputPrice)
  {
    var i, o, million := inputs as real / 1000000.0, outputs as real / 1000000.0, 1000000.0;
    MulDiv(inputs as real, million);
    MulDiv(outputs as real, million);
    hide Mul;
    MulSwap(million, i, c.inputPrice);
    MulSwap(million, o, c.outputPrice);
    MulSwap(i, million, 1.0);
    MulSwap(o, million, 1.0);
    MulAdd(Mul(i, c.inputPrice), Mul(o, c.outputPrice), million);
    MulSwap(million, Cost(c, inputs, outputs), 1.0);
    MulSwap(million, Mul(i, c.inputPrice), 1.0);
    MulSwap(million, Mul(o, c.outputPrice), 1.0);
  }

  /** What a step does to the spending, the abort flag and the calls at risk. */
  ghost predicate Billed(c: Config, s: State, s': State, e: Event) {
    || (&& s'.books.inputTokens == s.books.inputTokens && s'.books.outputTokens == s.books.outputTokens
        && s'.counts.succeeded == s.counts.succeeded
        && (s.flags.aborted ==> AtRisk(s') <= AtRisk(s))
        && (s'.flags.aborted && !s.flags.aborted ==> AtRisk(s') <= c.concurrency - 1))
    || (&& BilledAnswer(e) && AtRisk(s') == AtRisk(s) - 1 <= c.concurrency - 1
        && s'.books.inputTokens == s.books.inputTokens + e.reply.inputTokens
        && s'.books.outputTokens == s.books.outputTokens + e.reply.outputTokens
        && s'.counts.succeeded == s.counts.succeeded + 1 && s'.counts.failed == s.counts.failed
        && s'.flags.aborted == (s.flags.aborted || SpendGuardTrips(c, s'.counts, s'.books)))
  }

  lemma FedBills(c: Config, s: State, s': State, e: Event)
    requires Fed(c, s, s')
    ensures Billed(c, s, s', e)
  {
  }

  lemma SuccessBills(c: Config, s: State, e: Event)
    requires e.Answer? && e.at == s.now && Enabled(c, s, e) && Classify(e.reply).kind == Success
    requires |s.workers| == c.concurrency
    ensures Billed(c, s, Act(c, s, e), e)
  {
    hide Classify, Record, SetRate, SpendGuardTrips, TallyOf, DelayOk, Decide;
    TallyUpdate(s.workers, e.w, Idle);
    TallyBounds(s.workers);
    assert Act(c, s, e).workers == s.workers[e.w := Idle];
  }

  lemma RiskMoves(c: Config, s: State, s': State, w: nat)
    requires Worked(s, s', w) && |s.workers| == c.concurrency
    ensures s'.workers[w] == Idle ==> AtRisk(s') <= c.concurrency - 1
    ensures (s'.workers[w].Acquire? ==> s.workers[w].Acquire?) ==> AtRisk(s') <= AtRisk(s)
  {
    hide TallyOf, RowAdded, NoRow, BudgetLimit, Subject;
    TallyUpdate(s.workers, w, s'.workers[w]);
    TallyBounds(s'.workers);
    TallyPresent(s'.workers, w);
  }

  lemma NoBilling(c: Config, s: State, e: Event)
    requires ByWorker(e) && e.at == s.now && Enabled(c, s, e)
    requires !(e.Answer? && Classify(e.reply).kind == Success)
    ensures var s' := Act(c, s, e);
      && s'.books.inputTokens == s.books.inputTokens && s'.books.outputTokens == s.books.outputTokens
      && s'.counts.succeeded == s.counts.succeeded
  {
    hide Bump, BudgetLimit, Allow, TryTake, Record, SetRate, SpendGuardTrips, DecreaseDue, Classify, DelayOk, Tried;
  }

  lemma OtherBills(c: Config, s: State, e: Event)
    requires ByWorker(e) && e.at == s.now && Enabled(c, s, e) && Worked(s, Act(c, s, e), e.w)
    requires |s.workers| == c.concurrency
    requires !(e.Answer? && Classify(e.reply).kind == Success)
    ensures Billed(c, s, Act(c, s, e), e)
  {
    NoBilling(c, s, e);
    if s.flags.aborted { StoppedGate(c, s, e); }
    if Act(c, s, e).flags.aborted && !s.flags.aborted { AbortLeavesSetter(c, s, e); }
    hide Act, Worked, AtRisk;
    RiskMoves(c, s, Act(c, s, e), e.w);
  }

  lemma StepBills(c: Config, s: State, e: Event)
    requires Counted(c, s) && Sound(s) && Enabled(c, s, e)
    ensures Billed(c, s, Step(c, s, e), e)
  {
    var s0 := s.(now := e.at);
    assert Sound(s0) && Enabled(c, s0, e);
    hide Act, TallyOf, SpendGuardTrips, Sound, Counted, Worked, Fed;
    if ByWorker(e) {
      ActWorks(c, s0, e);
      if e.Answer? && Classify(e.reply).kind == Success {
        SuccessBills(c, s0, e);
      } else {
        OtherBills(c, s0, e);
      }
    } else {
      ActFeeds(c, s0, e);
      FedBills(c, s0, Step(c, s, e), e);
    }
  }

  lemma UnderCapAtCheck(c: Config, counts: Counts, books: Books)
    requires !SpendGuardTrips(c, counts, books) && counts.failed == 0
    requires counts.succeeded > 0 && counts.succeeded % 50 == 0
    ensures Cost(c, books.inputTokens, books.outputTokens) < c.spendCap
  {
    hide Mul, Cost;
  }

  lemma SuccessKeeps(c: Config, s: State, s': State, e: Event, m: real)
    requires Billed(c, s, s', e) && SpendInv(c, s, m) && 0.0 <= m && c.concurrency >= 1
    requires s'.counts.succeeded == s.counts.succeeded + 1
    requires !s'.flags.aborted ==> s'.counts.failed == 0
    requires BilledAnswer(e) ==> 0.0 <= PriceOf(c, e) <= m
    ensures SpendInv(c, s', m)
  {
    hide Classify, Mul, Cost, AtRisk, SpendGuardTrips;
    var price, k := PriceOf(c, e), s.counts.succeeded % 50;
    CostAdds(c, s.books.inputTokens, s.books.outputTokens, e.reply.inputTokens, e.reply.outputTokens);
    assert SpentBy(c, s') == SpentBy(c, s) + price;
    MulUnits(m);
    if s.flags.aborted {
      MulAdd(AtRisk(s') as real, 1.0, m);
    } else {
      MulAdd(k as real, 1.0, m);
      MulMono((k + 1) as real, 50.0, m);
      if s'.flags.aborted {
        MulMono(AtRisk(s') as real, (c.concurrency - 1) as real, m);
        MulAdd(50.0, (c.concurrency - 1) as real, m);
      } else if k == 49 {
        assert s'.counts.succeeded % 50 == 0;
        UnderCapAtCheck(c, s'.counts, s'.books);
      } else {
        assert s'.counts.succeeded % 50 == k + 1;
      }
    }
  }

  lemma BilledKeeps(c: Config, s: State, s': State, e: Event, m: real)
    requires Billed(c, s, s', e) && SpendInv(c, s, m) && 0.0 <= m && c.concurrency >= 1
    requires s.flags.aborted ==> s'.flags.aborted
    requires !s'.flags.aborted ==> s'.counts.failed == 0
    requires BilledAnswer(e) ==> 0.0 <= PriceOf(c, e) <= m
    ensures SpendInv(c, s', m)
  {
    hide Mul, Cost, AtRisk;
    MulUnits(m);
    if s'.counts.succeeded == s.counts.succeeded {
      if s'.flags.aborted {
        if s.flags.aborted {
          MulMono(AtRisk(s') as real, AtRisk(s) as real, m);
        } else {
          MulMono((s.counts.succeeded % 50) as real, 49.0, m);
          MulMono(AtRisk(s') as real, (c.concurrency - 1) as real, m);
          MulAdd(49.0, (c.concurrency - 1) as real, m);
          MulMono((48 + c.concurrency) as real, (49 + c.concurrency) as real, m);
        }
      }
    } else {
      SuccessKeeps(c, s, s', e, m);
    }
  }

  lemma PartsForSpend(c: Config, s: State)
    requires Inv(c, s)
    ensures Counted(c, s) && Sound(s)
  {
  }

  lemma FreeStart(c: Config, m: real)
    requires 0.0 < c.spendCap
    ensures SpendInv(c, Init(c), m)
  {
    hide Mul;
    MulUnits(m);
    MulUnits(c.inputPrice);
    MulUnits(c.outputPrice);
  }

  lemma FlagsOnlyGrow(c: Config, s: State, e: Event)
    requires Sound(s) && Enabled(c, s, e)
    ensures s.flags.aborted ==> Step(c, s, e).flags.aborted
  {
    var s0 := s.(now := e.at);
    assert Sound(s0) && Enabled(c, s0, e);
    if ByWorker(e) { ActWorks(c, s0, e); } else { ActFeeds(c, s0, e); }
    hide Act, RowAdded, NoRow, Subject, BudgetLimit;
  }

  lemma {:induction false} SpendRun(c: Config, es: seq<Event>, m: real)
    requires ValidConfig(c) && Feasible(c, Init(c), es) && CleanUntilAbort(c, es)
    requires 0.0 <= m && 0.0 < c.spendCap && PricedWithin(c, es, m)
    ensures SpendInv(c, Exec(c, Init(c), es), m)
  {
    if es == [] {
      FreeStart(c, m);
    } else {
      var f := Front(es);
      assert PricedWithin(c, f, m) by { assert forall i :: 0 <= i < |f| ==> f[i] == es[i]; }
      SpendRun(c, f, m);
      InitInv(c);
      RunInv(c, Init(c), f);
      var p, e := Exec(c, Init(c), f), Last(es);
      assert e == es[|es| - 1];
      PartsForSpend(c, p);
      StepBills(c, p, e);
      FlagsOnlyGrow(c, p, e);
      hide Step, Inv, Billed, SpendInv, Cost, Counted, Sound;
      BilledKeeps(c, p, Exec(c, Init(c), es), e, m);
    }
  }

  /** Spend overshoot. In any run in which no item fails before the guard (or a fatal answer)
      aborts the job, what has been spent stays below the cap plus the price of
      49 + concurrency answers. */
  lemma SpendOvershoot(c: Config, es: seq<Event>, m: real)
    requires ValidConfig(c) && Feasible(c, Init(c), es) && CleanUntilAbort(c, es)
    requires 0.0 <= m && 0.0 < c.spendCap && PricedWithin(c, es, m)
    ensures SpentBy(c, Exec(c, Init(c), es)) < c.spendCap + Mul((49 + c.concurrency) as real, m)
  {
    SpendRun(c, es, m);
    var s := Exec(c, Init(c), es);
    InitInv(c);
    RunInv(c, Init(c), es);
    TallyBounds(s.workers);
    hide Exec, Mul, Inv, TallyOf;
    MulUnits(m);
    if s.flags.aborted {
      MulMono(0.0, AtRisk(s) as real, m);
    } else {
      MulMono((s.counts.succeeded % 50) as real, (49 + c.concurrency) as real, m);
    }
  }

  /** The guard's two tests are one: since no fewer items are ingested than done, the projection
      subsumes the cost so far. */
  lemma SpendTestsCollapse(c: Config, cost: real, done: int, ingested: int)
    requires 0 < done <= ingested && 0.0 <= cost
    ensures SpendTrips(c, cost, done, ingested)
      <==> Mul(cost, ingested as real) >= Mul(c.spendCap, done as real)
  {
    var d, n, cap := done as real, ingested as real, c.spendCap;
    var per := cost / d;
    MulDiv(cost, d);
    hide Mul;
    MulSwap(n, per, d);
    MulSwap(per, n, d);
    MulSwap(per, d, n);
    MulSwap(d, n, per);
    MulSwap(n, d, per);
    MulSwap(per, d, 1.0);
    assert Mul(Mul(per, n), d) == Mul(cost, n);
    if Mul(per, n) >= cap { MulMono(cap, Mul(per, n), d); }
    if Mul(per, n) < cap { MulStrict(Mul(per, n), cap, d); }
    if cost >= cap {
      MulMono(cap, cost, n);
      if cap >= 0.0 {
        MulMono(d, n, cap);
        MulSwap(d, cap, 1.0);
        MulSwap(n, cap, 1.0);
      } else {
        MulMono(cap, 0.0, d);
        MulMono(0.0, cost, n);
        MulUnits(d);
        MulUnits(n);
      }
    }
  }

  // ---------------------------------------------------------------- why a job is aborted

  lemma OnlyAnswersAbort(c: Config, s: State, e: Event)
    requires Enabled(c, s, e) && !s.flags.aborted && Step(c, s, e).flags.aborted
    ensures e.Answer?
  {
    hide Bump, BudgetLimit, Allow, TryTake, Record, SetRate, SpendGuardTrips, DecreaseDue, Classify, DelayOk, OnAnswer;
  }

  lemma StepAborts(c: Config, s: State, e: Event)
    requires Enabled(c, s, e) && !s.flags.aborted && Step(c, s, e).flags.aborted
    ensures e.Answer?
    ensures var s', kind := Step(c, s, e), Classify(e.reply).kind;
      IsFatal(kind) || (kind == Success && SpendGuardTrips(c, s'.counts, s'.books))
  {
    OnlyAnswersAbort(c, s, e);
    hide Bump, BudgetLimit, Record, SetRate, SpendTrips, DecreaseDue, Classify, DelayOk, Tried, Cost;
  }

  predicate AbortsAt(c: Config, es: seq<Event>, k: nat)
    requires Feasible(c, Init(c), es) && k < |es| && Feasible(c, Init(c), es[..k + 1])
  {
    && es[k].Answer?
    && var s := Exec(c, Init(c), es[..k + 1]);
    && (|| IsFatal(Classify(es[k].reply).kind)
        || (Classify(es[k].reply).kind == Success && SpendGuardTrips(c, s.counts, s.books)))
  }

  lemma NotAbortedAtFirst(c: Config)
    ensures !Init(c).flags.aborted
  {
  }

  /** A job is never aborted without cause: some answer of the run was fatal, or was a success
      at which the spend guard found the cap reached. */
  lemma {:induction false} AbortHasReason(c: Config, es: seq<Event>) returns (k: nat)
    requires ValidConfig(c) && Feasible(c, Init(c), es) && Exec(c, Init(c), es).flags.aborted
    ensures k < |es| && Feasible(c, Init(c), es[..k + 1]) && AbortsAt(c, es, k)
    decreases |es|
  {
    hide Step, Enabled, SpendGuardTrips, Classify;
    k := 0;
    if es == [] {
      NotAbortedAtFirst(c);
    } else {
      var f := Front(es);
      if Exec(c, Init(c), f).flags.aborted {
        k := AbortHasReason(c, f);
        assert f[..k + 1] == es[..k + 1];
      } else {
        k := |f|;
        assert es[..k + 1] == es && es[k] == Last(es);
        StepAborts(c, Exec(c, Init(c), f), Last(es));
      }
    }
  }

  lemma CauseAborts(c: Config, s: State, e: Event)
    requires Enabled(c, s, e) && e.Answer?
    requires var s', kind := Step(c, s, e), Classify(e.reply).kind;
      IsFatal(kind) || (kind == Success && SpendGuardTrips(c, s'.counts, s'.books))
    ensures Step(c, s, e).flags.aborted
  {
    hide Bump, BudgetLimit, Record, SetRate, SpendTrips, DecreaseDue, Classify, DelayOk, Tried, Cost, Decide;
  }

  lemma {:induction false} AbortStays(c: Config, es: seq<Event>, k: nat)
    requires ValidConfig(c) && Feasible(c, Init(c), es) && k <= |es|
    requires Feasible(c, Init(c), es[..k]) && Exec(c, Init(c), es[..k]).flags.aborted
    ensures Exec(c, Init(c), es).flags.aborted
    decreases |es|
  {
    hide Step, Inv, Sound, Enabled;
    if k == |es| {
      assert es[..k] == es;
    } else {
      var f := Front(es);
      assert f[..k] == es[..k];
      AbortStays(c, f, k);
      InitInv(c);
      RunInv(c, Init(c), f);
      InvSound(c, Exec(c, Init(c), f));
      FlagsOnlyGrow(c, Exec(c, Init(c), f), Last(es));
    }
  }

  /** Exactly when a job is aborted: some answer of the run was fatal, or was a success at which
      the spend guard's test held. */
  lemma AbortedExactly(c: Config, es: seq<Event>)
    requires ValidConfig(c) && Feasible(c, Init(c), es)
    ensures Exec(c, Init(c), es).flags.aborted
      <==> exists k: nat :: k < |es| && Feasible(c, Init(c), es[..k + 1]) && AbortsAt(c, es, k)
  {
    hide Step, Enabled, SpendGuardTrips, Classify;
    if Exec(c, Init(c), es).flags.aborted {
      var k := AbortHasReason(c, es);
    }
    if k: nat :| k < |es| && Feasible(c, Init(c), es[..k + 1]) && AbortsAt(c, es, k) {
      assert Front(es[..k + 1]) == es[..k] && Last(es[..k + 1]) == es[k];
      CauseAborts(c, Exec(c, Init(c), es[..k]), es[k]);
      AbortStays(c, es, k + 1);
    }
  }

  // ---------------------------------------------------------------- what is billed

  function BilledInputs(es: seq<Event>): int {
    if es == [] then 0
    else BilledInputs(Front(es)) + (if BilledAnswer(Last(es)) then Last(es).reply.inputTokens else 0)
  }

  function BilledOutputs(es: seq<Event>): int {
    if es == [] then 0
    else BilledOutputs(Front(es)) + (if BilledAnswer(Last(es)) then Last(es).reply.outputTokens else 0)
  }

  lemma SuccessUsage(c: Config, s: State, e: Event)
    requires BilledAnswer(e) && e.at == s.now && Enabled(c, s, e)
    ensures var s' := Act(c, s, e);
      && s'.books.inputTokens == s.books.inputTokens + e.reply.inputTokens
      && s'.books.outputTokens == s.books.outputTokens + e.reply.outputTokens
  {
    hide Classify, Record, SetRate, SpendGuardTrips, DelayOk, Decide, Fatal, SlowDown, Tried;
  }

  lemma StepUsage(c: Config, s: State, e: Event)
    requires Sound(s) && Enabled(c, s, e)
    ensures var s' := Step(c, s, e);
      && s'.books.inputTokens == s.books.inputTokens + (if BilledAnswer(e) then e.reply.inputTokens else 0)
      && s'.books.outputTokens == s.books.outputTokens + (if BilledAnswer(e) then e.reply.outputTokens else 0)
  {
    var s0 := s.(now := e.at);
    assert Sound(s0) && Enabled(c, s0, e);
    if BilledAnswer(e) {
      SuccessUsage(c, s0, e);
    } else if ByWorker(e) {
      NoBilling(c, s0, e);
    } else {
      ActFeeds(c, s0, e);
    }
    hide Act;
  }

  /** The usage totals of a job are the sums over the successful answers it got, and of nothing
      else: no failed or malformed answer is billed to it. */
  lemma {:induction false} UsageIsBilled(c: Config, es: seq<Event>)
    requires ValidConfig(c) && Feasible(c, Init(c), es)
    ensures var s := Exec(c, Init(c), es);
      s.books.inputTokens == BilledInputs(es) && s.books.outputTokens == BilledOutputs(es)
  {
    if es == [] {
    } else {
      hide Step, Inv, Sound, BilledAnswer;
      UsageIsBilled(c, Front(es));
      InitInv(c);
      RunInv(c, Init(c), Front(es));
      InvSound(c, Exec(c, Init(c), Front(es)));
      StepUsage(c, Exec(c, Init(c), Front(es)), Last(es));
    }
  }

  lemma NothingSpent(c: Config)
    ensures SpentBy(c, Init(c)) == 0.0
  {
    hide Mul;
    MulUnits(c.inputPrice);
    MulUnits(c.outputPrice);
  }

  lemma {:induction false} SpentIsNonNegative(c: Config, es: seq<Event>, m: real)
    requires ValidConfig(c) && Feasible(c, Init(c), es) && PricedWithin(c, es, m)
    ensures 0.0 <= SpentBy(c, Exec(c, Init(c), es))
  {
    hide Step, Inv, Sound, Classify, Cost, Enabled;
    if es == [] {
      NothingSpent(c);
    } else {
      var f, e := Front(es), Last(es);
      assert PricedWithin(c, f, m) by { assert forall i :: 0 <= i < |f| ==> f[i] == es[i]; }
      SpentIsNonNegative(c, f, m);
      InitInv(c);
      RunInv(c, Init(c), f);
      InvSound(c, Exec(c, Init(c), f));
      StepUsage(c, Exec(c, Init(c), f), e);
      var books := Exec(c, Init(c), f).books;
      assert e == es[|es| - 1];
      if BilledAnswer(e) {
        CostAdds(c, books.inputTokens, books.outputTokens, e.reply.inputTokens, e.reply.outputTokens);
      }
    }
  }

  /** In every reachable state the guard is one test: every 50 done rows, it trips exactly when
      cost * ingested >= cap * done. The bound m plays no part but to rule out negative prices. */
  lemma GuardIsOneTest(c: Config, es: seq<Event>, m: real)
    requires ValidConfig(c) && Feasible(c, Init(c), es) && PricedWithin(c, es, m)
    ensures var s := Exec(c, Init(c), es);
      var done := s.counts.succeeded + s.counts.failed;
      SpendGuardTrips(c, s.counts, s.books)
      <==> done > 0 && done % 50 == 0
           && Mul(SpentBy(c, s), s.counts.ingested as real) >= Mul(c.spendCap, done as real)
  {
    hide Exec, Feasible, Cost, Mul, SpendTrips;
    SpentIsNonNegative(c, es, m);
    Conservation(c, es);
    Backpressure(c, es);
    var s := Exec(c, Init(c), es);
    var done := s.counts.succeeded + s.counts.failed;
    if done > 0 { SpendTestsCollapse(c, SpentBy(c, s), done, s.counts.ingested); }
  }

  // ---------------------------------------------------------------- the blind spot

  /** Every 50th row is an error row, and no row is fatal. */
  predicate Unguarded(log: seq<OutRow>) {
    forall i :: 0 <= i < |log| ==>
      && ((i + 1) % SPEND_CHECK_EVERY == 0 ==> log[i].Failed?)
      && (log[i].Failed? ==> !IsFatal(log[i].kind))
  }

  lemma UnguardedPrefix(log: seq<OutRow>, log': seq<OutRow>)
    requires Unguarded(log') && |log| <= |log'| && log' == log + log'[|log|..]
    ensures Unguarded(log)
  {
    forall i | 0 <= i < |log|
      ensures ((i + 1) % SPEND_CHECK_EVERY == 0 ==> log[i].Failed?) && (log[i].Failed? ==> !IsFatal(log[i].kind))
    {
      assert log[i] == log'[i];
    }
  }

  lemma AgreedParts(c: Config, s: State)
    requires Inv(c, s)
    ensures Sound(s) && s.counts.succeeded + s.counts.failed == |s.books.log|
  {
  }

  /** The log and the abort flag after a step, as far as the guard is concerned. */
  predicate LogStep(s: State, s': State) {
    var log, log' := s.books.log, s'.books.log;
    && |log| <= |log'| <= |log| + 1 && log' == log + log'[|log|..]
    && (s'.flags.aborted && !s.flags.aborted ==>
         && |log'| == |log| + 1
         && (if log'[|log|].Failed? then IsFatal(log'[|log|].kind) else |log'| % SPEND_CHECK_EVERY == 0))
  }

  lemma SucceedLog(c: Config, s: State, w: nat, task: Task, reply: Reply)
    requires w < |s.workers| && reply.Response?
    requires s.counts.succeeded + s.counts.failed == |s.books.log|
    ensures LogStep(s, Succeed(c, s, w, task, reply))
  {
    hide OnSuccess, SpendTrips, Cost;
  }

  lemma FatalLog(s: State, w: nat, task: Task, kind: FailureClass, status: Option<int>)
    requires w < |s.workers| && IsFatal(kind)
    ensures LogStep(s, Fatal(s, w, task, kind, status))
  {
    hide Bump;
  }

  lemma DecideLog(s: State, w: nat, task: Task, v: Verdict, status: Option<int>, delay: real)
    requires w < |s.workers|
    ensures LogStep(s, Decide(s, w, task, v, status, delay))
  {
    hide Bump, BudgetLimit;
  }

  lemma AnswerLog(c: Config, s: State, e: Event)
    requires e.Answer? && e.at == s.now && Enabled(c, s, e)
    requires s.counts.succeeded + s.counts.failed == |s.books.log|
    ensures LogStep(s, Act(c, s, e))
  {
    hide Record, Classify, DelayOk, Succeed, Decide, Fatal, OnThrottle, Tried;
    var w, v, status, task := e.w, Classify(e.reply), StatusOf(e.reply), Tried(s.workers[e.w], e.reply);
    var s1 := Returned(c, s, v.kind);
    var s2 := if v.kind == Throttled then SlowDown(c, s1) else s1;
    if v.kind == Success {
      SucceedLog(c, s1, w, task, e.reply);
    } else if IsFatal(v.kind) {
      FatalLog(s1, w, task, v.kind, status);
    } else {
      DecideLog(s2, w, task, v, status, e.delay);
    }
  }

  /** Rows are only ever appended, and the flag is raised only by a fatal row or by a success
      row whose place is a multiple of 50. */
  lemma LogGrows(c: Config, s: State, e: Event)
    requires Sound(s) && Enabled(c, s, e) && s.counts.succeeded + s.counts.failed == |s.books.log|
    ensures LogStep(s, Step(c, s, e))
  {
    var s0 := s.(now := e.at);
    assert Sound(s0) && Enabled(c, s0, e);
    if e.Answer? {
      AnswerLog(c, s0, e);
    } else if ByWorker(e) {
      ActWorks(c, s0, e);
      if Step(c, s, e).flags.aborted && !s.flags.aborted { OnlyAnswersAbort(c, s, e); }
      hide Act, Subject, FlagsGrow, BudgetLimit;
    } else {
      ActFeeds(c, s0, e);
      hide Act;
    }
  }

  /** The guard runs only after a success, so if every 50th row of the file is an error row and
      no row is fatal, the job is never aborted, whatever it has spent and however low the cap. */
  lemma {:induction false} GuardBlindSpot(c: Config, es: seq<Event>)
    requires ValidConfig(c) && Feasible(c, Init(c), es) && Unguarded(Exec(c, Init(c), es).books.log)
    ensures !Exec(c, Init(c), es).flags.aborted
  {
    if es == [] {
    } else {
      var p, e := Exec(c, Init(c), Front(es)), Last(es);
      InitInv(c);
      RunInv(c, Init(c), Front(es));
      AgreedParts(c, p);
      LogGrows(c, p, e);
      hide Step, Inv, Counted, Sound, InAgreement;
      UnguardedPrefix(p.books.log, Exec(c, Init(c), es).books.log);
      GuardBlindSpot(c, Front(es));
    }
  }
}
