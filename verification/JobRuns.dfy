// The theorems about whole jobs: what holds in every state that any run can reach, and what is
// left when a job is done.

module JobRuns {
  import opened Models
  import opened Retry
  import opened RateLimit
  import opened Job
  import opened JobLedger
  import opened JobCustody
  import opened JobAttempts

  ghost predicate Inv(c: Config, s: State) {
    && Counted(c, s) && Sound(s) && Located(s) && Draining(c, s)
    && InAgreement(s) && Traced(c, s) && CallsTraced(s) && Probed(s)
  }

  lemma {:induction false} NoCalls(ws: seq<Stage>)
    requires forall w :: 0 <= w < |ws| ==> ws[w] == Idle
    ensures WorkerCalls(ws) == 0
  {
    if ws == [] {
    } else {
      NoCalls(ws[1..]);
    }
  }

  lemma InitInv(c: Config)
    requires ValidConfig(c)
    ensures Inv(c, Init(c))
  {
    InitCounted(c);
    InitLocated(c);
    AllIdle(Init(c).workers);
    NoCalls(Init(c).workers);
    hide TallyOf, WorkerCalls, IdleWorkers, Counted, Located;
  }

  lemma StepInv(c: Config, s: State, e: Event)
    requires ValidConfig(c) && Inv(c, s) && Enabled(c, s, e)
    ensures Inv(c, Step(c, s, e))
  {
    assert |s.workers| == c.concurrency;
    hide Counted, Sound, Located, Draining, InAgreement, Traced, CallsTraced, Probed, Step;
    CountedKept(c, s, e);
    SoundKept(c, s, e);
    LocatedKept(c, s, e);
    DrainingKept(c, s, e);
    AgreementKept(c, s, e);
    TracedKept(c, s, e);
    CallsTracedKept(c, s, e);
    ProbedKept(c, s, e);
  }

  /** Every state of every run. */
  lemma {:induction false} RunInv(c: Config, s: State, es: seq<Event>)
    requires ValidConfig(c) && Inv(c, s) && Feasible(c, s, es)
    ensures Inv(c, Exec(c, s, es))
  {
    if es == [] {
    } else {
      hide Inv, Step;
      RunInv(c, s, Front(es));
      StepInv(c, Exec(c, s, Front(es)), Last(es));
    }
  }

  lemma InvSound(c: Config, s: State)
    requires Inv(c, s)
    ensures Sound(s) && |s.workers| == c.concurrency
  {
  }

  // ---------------------------------------------------------------- in every reachable state

  /** Conservation: no ingested item is ever lost or double-counted, and each is in exactly one
      place; `pending` counts those that no row has resolved yet. */
  lemma Conservation(c: Config, es: seq<Event>)
    requires ValidConfig(c) && Feasible(c, Init(c), es)
    ensures var s := Exec(c, Init(c), es);
      && s.counts.ingested == s.counts.succeeded + s.counts.failed + s.counts.pending
      && s.counts.succeeded + s.counts.failed == |s.books.log|
      && forall i: nat :: i < s.counts.ingested ==> Places(s, i) == 1 && Resolved(s.books.log, i) <= 1
  {
    InitInv(c);
    RunInv(c, Init(c), es);
    var s := Exec(c, Init(c), es);
    forall i: nat | i < s.counts.ingested ensures Places(s, i) == 1 && Resolved(s.books.log, i) <= 1 {
      assert Places(s, i) == 1;
    }
  }

  /** Bounded upstream work: the job has made at most one call per ingested item plus a budget
      of a fifth of them (at least one), however the upstream behaves and however the budget
      grows while the job runs. */
  lemma BoundedUpstreamWork(c: Config, es: seq<Event>)
    requires ValidConfig(c) && Feasible(c, Init(c), es)
    ensures var s := Exec(c, Init(c), es);
      && |s.starts| <= s.counts.ingested + Max(1, s.counts.ingested / 5)
      && s.control.controller.retries == s.budget.used <= Max(1, s.counts.ingested / 5)
  {
    InitInv(c);
    RunInv(c, Init(c), es);
    TallyBounds(Exec(c, Init(c), es).workers);
  }

  /** Backpressure: memory held for work in progress is bounded by the concurrency alone. */
  lemma Backpressure(c: Config, es: seq<Event>)
    requires ValidConfig(c) && Feasible(c, Init(c), es)
    ensures var s := Exec(c, Init(c), es);
      && 0 <= s.counts.pending <= 5 * c.concurrency + 1
      && s.counts.inFlight == TallyOf(s.workers).calling && 0 <= s.counts.inFlight <= c.concurrency
  {
    InitInv(c);
    RunInv(c, Init(c), es);
    TallyBounds(Exec(c, Init(c), es).workers);
    QueueBounds(Exec(c, Init(c), es).queue);
  }

  /** Ledger agreement: counters, usage totals and errors_by_class are those of the rows. */
  lemma LedgerAgreement(c: Config, es: seq<Event>)
    requires ValidConfig(c) && Feasible(c, Init(c), es)
    ensures var s := Exec(c, Init(c), es);
      && s.counts.succeeded == Successes(s.books.log)
      && s.books.inputTokens == InputSum(s.books.log) && s.books.outputTokens == OutputSum(s.books.log)
      && (forall kind :: Booked(s.books.errors, kind) == ErrorsOf(s.books.log, kind))
      && s.counts.failed == Booked(s.books.errors, InvalidInput) + Booked(s.books.errors, FatalAuth)
           + Booked(s.books.errors, FatalBilling) + Booked(s.books.errors, TransientExhausted)
           + Booked(s.books.errors, Cancelled)
      && (forall kind :: kind in s.books.errors ==>
           && IsTerminalFailure(kind)
           && (kind == Cancelled ==> s.flags.cancelled) && (IsFatal(kind) ==> s.flags.aborted))
  {
    InitInv(c);
    RunInv(c, Init(c), es);
    ErrorsSumToFailed(Exec(c, Init(c), es));
  }

  /** Attempt traces: every finished item made at most 8 calls; call number k was followed by
      another only if k was below the cap of the verdict it got, so a retried call from the
      fifth on was a 429 and a malformed reply is retried only as the first call; its back-off
      sleeps stay within the seven envelopes; and all calls of the job are in these traces. */
  lemma AttemptTraces(c: Config, es: seq<Event>, i: nat)
    requires ValidConfig(c) && Feasible(c, Init(c), es) && i < |Exec(c, Init(c), es).books.log|
    ensures var s := Exec(c, Init(c), es);
      var row := s.books.log[i];
      && |row.task.trace| <= 8
      && (forall k :: 0 <= k < |row.task.trace| - 1 ==>
           && k + 1 < row.task.trace[k].cap
           && (k + 1 >= 5 ==> row.task.trace[k].kind == Throttled)
           && (row.task.trace[k].cap == 2 ==> k == 0))
      && 0.0 <= row.task.slept <= BackoffSum(c, 7)
      && (row.Done? ==> row.task.trace != [] && Last(row.task.trace).kind == Success)
      && |s.starts| == RowCalls(s.books.log) + WorkerCalls(s.workers)
  {
    InitInv(c);
    RunInv(c, Init(c), es);
    var row := Exec(c, Init(c), es).books.log[i];
    assert RowOk(c, row);
    BackoffSumGrows(c, Min(7, |row.task.trace|), 7);
    hide Inv, BackoffSum, Exec;
    forall k | 0 <= k < |row.task.trace| - 1
      ensures k + 1 < row.task.trace[k].cap && (k + 1 >= 5 ==> row.task.trace[k].kind == Throttled)
    {
      assert Tabled(row.task.trace[k]);
    }
  }

  /** No wedged breaker: while it is half-open, the worker whose request made it so is waiting
      for its token or for its call's answer, and so is bound to report an outcome. */
  lemma NoWedgedBreaker(c: Config, es: seq<Event>)
    requires ValidConfig(c) && Feasible(c, Init(c), es)
    requires Exec(c, Init(c), es).control.breaker.state == HalfOpen
    ensures var s := Exec(c, Init(c), es);
      && s.prober < |s.workers|
      && (s.workers[s.prober].Acquire? || s.workers[s.prober].Calling?)
  {
    InitInv(c);
    RunInv(c, Init(c), es);
  }

  lemma AllowKeepsHalfOpen(c: Config, s: State, now: real)
    requires s.control.breaker.state == HalfOpen
    ensures Allow(c.breaker, s.control.breaker, now).breaker.state == HalfOpen
  {
  }

  /** What ends a half-open epoch: the next answer to any call at all, whoever made it and
      whenever it was sent, and nothing else. A failure opens the breaker again, anything else
      closes it. */
  lemma HalfOpenEndsOnAnswer(c: Config, s: State, e: Event)
    requires Enabled(c, s, e) && s.control.breaker.state == HalfOpen
    ensures var s' := Step(c, s, e);
      && (s'.control.breaker.state != HalfOpen <==> e.Answer?)
      && (e.Answer? ==>
           s'.control.breaker.state == if BreakerFailure(Classify(e.reply).kind) then Open else Closed)
  {
    hide Bump, BudgetLimit, Allow, TryTake, SetRate, SpendGuardTrips, DecreaseDue, Classify, DelayOk, OnAnswer;
    if e.Answer? {
      AnswerControl(c, s.(now := e.at), e.w, e.reply, e.pause, e.delay);
    } else if e.Pass? {
      AllowKeepsHalfOpen(c, s, e.at);
    }
  }

  // ---------------------------------------------------------------- when the job is done

  lemma {:induction false} NobodyHolds(ws: seq<Stage>, i: nat)
    requires TallyOf(ws).exited == |ws|
    ensures Held(ws, i) == 0
  {
    if ws == [] {
    } else {
      hide TallyOf, One;
      TallyHead(ws);
      TallyBounds(ws[1..]);
      OneBounds(ws[0]);
      OneExited(ws[0]);
      NobodyHolds(ws[1..], i);
    }
  }

  /** Exactly once: when the last worker has left and the job is joined, nothing is queued,
      held or in flight, the conservation assertion holds, and every ingested item has
      exactly one row. */
  lemma ExactlyOnce(c: Config, es: seq<Event>)
    requires ValidConfig(c) && Feasible(c, Init(c), es) && Exec(c, Init(c), es).ingest.Finished?
    ensures var s := Exec(c, Init(c), es);
      && s.queue == [] && TallyOf(s.workers).exited == c.concurrency
      && s.counts.pending == 0 && s.counts.inFlight == 0
      && s.counts.succeeded + s.counts.failed == s.counts.ingested == |s.books.log|
      && forall i: nat :: Resolved(s.books.log, i) == if i < s.counts.ingested then 1 else 0
  {
    InitInv(c);
    RunInv(c, Init(c), es);
    var s := Exec(c, Init(c), es);
    TallyBounds(s.workers);
    hide Exec;
    forall i: nat ensures Resolved(s.books.log, i) == if i < s.counts.ingested then 1 else 0 {
      NobodyHolds(s.workers, i);
      assert Places(s, i) == if i < s.counts.ingested then 1 else 0;
    }
  }

  /** What the final status says about the rows: SUCCEEDED means every ingested item has its
      success row, PARTIAL that some do and some do not, FAILED that none does or that the job
      was aborted. */
  lemma FinalStatusMeaning(c: Config, es: seq<Event>)
    requires ValidConfig(c) && Feasible(c, Init(c), es) && Exec(c, Init(c), es).ingest.Finished?
    ensures var s := Exec(c, Init(c), es);
      && (FinalStatus(s) == SUCCEEDED <==>
            !s.flags.cancelled && !s.flags.aborted && Successes(s.books.log) == |s.books.log| == s.counts.ingested)
      && (FinalStatus(s) == PARTIAL <==>
            !s.flags.cancelled && !s.flags.aborted && 0 < Successes(s.books.log) < s.counts.ingested)
      && (FinalStatus(s) == CANCELLED <==> s.flags.cancelled)
      && (FinalStatus(s) == FAILED <==>
            !s.flags.cancelled && (s.flags.aborted || (Successes(s.books.log) == 0 < s.counts.ingested)))
  {
    ExactlyOnce(c, es);
    LedgerAgreement(c, es);
  }
}
