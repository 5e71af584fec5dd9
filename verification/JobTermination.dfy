// Every run of a job over a finite input ends, with all workers exited: a measure that every
// step lowers, and a proof that an unfinished job can always take a step.

module JobTermination {
  import opened Models
  import opened Retry
  import opened RateLimit
  import opened Job
  import opened JobLedger
  import opened JobCustody
  import opened JobAttempts
  import opened JobRuns

  // ---------------------------------------------------------------- the bucket and the clock

  /** The rate that this step asks the bucket for, if it retunes it. */
  function Retunes(c: Config, s: State, e: Event): Option<real> {
    if !e.Answer? then None
    else
      var kind := Classify(e.reply).kind;
      if kind == Success && s.control.controller.successes + 1 >= c.controller.streak then
        Some(MinReal(c.controller.maxRate, s.control.bucket.rate + c.controller.step))
      else if kind == Throttled && DecreaseDue(c.controller, s.control.controller, e.at) then
        Some(MaxReal(c.controller.minRate, Mul(s.control.bucket.rate, c.controller.factor)))
      else None
  }

  /** The step, as the bucket sees it. */
  function AsBucketEvent(c: Config, s: State, e: Event): Option<BucketEvent> {
    if e.Token? then Some(Acquiring(e.at))
    else match Retunes(c, s, e)
         case None => None
         case Some(rate) => Some(Retuning(e.at, rate))
  }

  lemma DecideBucket(s: State, w: nat, task: Task, v: Verdict, status: Option<int>, delay: real)
    requires w < |s.workers|
    ensures Decide(s, w, task, v, status, delay).control.bucket == s.control.bucket
  {
    hide Bump, BudgetLimit;
  }

  lemma DueAnyway(c: Config, s: State)
    ensures forall t: nat, k: nat ::
      DecreaseDue(c.controller, s.control.controller.(throttles := t, successes := k), s.now)
        == DecreaseDue(c.controller, s.control.controller, s.now)
  {
  }

  lemma AnswerBucket(c: Config, s: State, e: Event)
    requires e.Answer? && e.at == s.now && Enabled(c, s, e)
    ensures OnAnswer(c, s, e.w, e.reply, e.pause, e.delay).control.bucket ==
      match Retunes(c, s, e)
      case None => s.control.bucket
      case Some(rate) => SetRate(s.control.bucket, rate, s.now)
  {
    hide Bump, BudgetLimit, Record, SetRate, SpendGuardTrips, DelayOk, Mul, DecreaseDue, Classify;
    var v := Classify(e.reply);
    var task := Tried(s.workers[e.w], e.reply);
    DecideBucket(Returned(c, s, v.kind), e.w, task, v, StatusOf(e.reply), e.delay);
    DecideBucket(SlowDown(c, Returned(c, s, v.kind)), e.w, task, v, StatusOf(e.reply), e.delay);
    DueAnyway(c, s);
    hide Decide;
  }

  lemma BucketMoves(c: Config, s: State, e: Event)
    requires Enabled(c, s, e)
    ensures Step(c, s, e).control.bucket ==
      match AsBucketEvent(c, s, e)
      case None => s.control.bucket
      case Some(x) => StepBucket(s.control.bucket, x)
  {
    hide Bump, BudgetLimit, Allow, TryTake, Record, SetRate, SpendGuardTrips, Classify, DelayOk, Mul, DecreaseDue;
    hide OnAnswer;
    if e.Answer? { AnswerBucket(c, s.(now := e.at), e); }
  }

  ghost predicate BucketOk(c: Config, s: State) {
    && ValidBucket(s.control.bucket) && s.control.bucket.capacity == c.bucket.capacity
    && s.control.bucket.last <= s.now
  }

  lemma StepBucketValid(b: Bucket, e: BucketEvent)
    requires ValidBucket(b)
    ensures ValidBucket(StepBucket(b, e)) && StepBucket(b, e).capacity == b.capacity
    ensures StepBucket(b, e).last == e.at
  {
    hide Mul;
    RefillValid(b, e.at);
  }

  lemma StepNow(c: Config, s: State, e: Event)
    requires Enabled(c, s, e)
    ensures Step(c, s, e).now == e.at
  {
    hide Bump, BudgetLimit, Allow, TryTake, Record, SetRate, SpendGuardTrips, Classify, DelayOk, Mul, DecreaseDue;
  }

  lemma BucketOkKept(c: Config, s: State, e: Event)
    requires BucketOk(c, s) && Enabled(c, s, e)
    ensures BucketOk(c, Step(c, s, e))
  {
    BucketMoves(c, s, e);
    StepNow(c, s, e);
    var x := AsBucketEvent(c, s, e);
    if x.Some? { StepBucketValid(s.control.bucket, x.value); }
    hide Step, StepBucket, Retunes;
  }

  // ---------------------------------------------------------------- the measure: progress

  function IngestWork(c: Config, g: Ingest): int {
    match g
    case Reading => 2 * c.concurrency + 2
    case Putting(_) => 2 * c.concurrency + 8
    case Closing(sent) => 2 * (c.concurrency - sent) + 1
    case Finished => 0
  }

  function StageWork(t: Tally): int { 4 * t.gate + 3 * t.acquire + 2 * t.calling + t.pausing }

  /** What is left to do, not counting polls and token waits: rows to read, retries still in
      the budget, queued entries, and how far each worker is from its item's end. */
  function Work(c: Config, s: State): int {
    7 * (|c.rows| - s.next) + 4 * (BudgetLimit(|c.rows|) - s.budget.used)
    + |s.queue| + 4 * Items(s.queue) + StageWork(TallyOf(s.workers))
    + IngestWork(c, s.ingest) + (if s.flags.cancelled then 0 else 1)
  }

  /** A step that only waits: a refused poll of the breaker, or a pass without a token. */
  predicate Waits(s: State, s': State, e: Event) {
    && ByWorker(e) && e.w < |s.workers| && e.w < |s'.workers|
    && ((s.workers[e.w].Gate? && s'.workers[e.w].Gate?) || (s.workers[e.w].Acquire? && s'.workers[e.w].Acquire?))
  }

  lemma WorkedWork(c: Config, s: State, s': State, e: Event)
    requires ByWorker(e) && Worked(s, s', e.w)
    ensures Work(c, s') <= Work(c, s) - (if Waits(s, s', e) then 0 else 1)
  {
    hide TallyOf, Items, BudgetLimit, Bump, RowFits, RowAdded, NoRow, Subject;
    TallyUpdate(s.workers, e.w, s'.workers[e.w]);
    if s.workers[e.w].Idle? { QueueHead(s.queue); }
    assert s.queue[0..] == s.queue;
  }

  lemma FedWork(c: Config, s: State, e: Event)
    requires Counted(c, s) && e.at == s.now && Enabled(c, s, e) && !ByWorker(e)
    ensures Work(c, Act(c, s, e)) < Work(c, s)
  {
    hide TallyOf, Items, Shutdowns, BudgetLimit, OnGet, OnPass, OnToken, OnAnswer, OnResume;
    if s.ingest.Putting? { QueueAppend(s.queue, s.ingest.entry); }
    QueueAppend(s.queue, Shutdown);
  }

  lemma WorkDrops(c: Config, s: State, e: Event)
    requires Counted(c, s) && Sound(s) && Enabled(c, s, e)
    ensures Work(c, Step(c, s, e)) <= Work(c, s) - (if Waits(s, Step(c, s, e), e) then 0 else 1)
  {
    var s0 := s.(now := e.at);
    assert Sound(s0) && Counted(c, s0) && Enabled(c, s0, e) && Work(c, s0) == Work(c, s);
    hide Act, Worked, Counted, Sound, Work, IngestWork;
    if ByWorker(e) {
      ActWorks(c, s0, e);
      WorkedWork(c, s0, Act(c, s0, e), e);
    } else {
      FedWork(c, s0, e);
    }
  }

  lemma WorkBounds(c: Config, s: State)
    requires Counted(c, s) && Draining(c, s)
    ensures Work(c, s) >= 0
  {
    hide TallyOf, Items, Shutdowns;
    TallyBounds(s.workers);
    BudgetLimitGrows(s.budget.total, Max(1, |c.rows|));
  }

  // ---------------------------------------------------------------- the measure: waiting

  /** Refused polls still possible for a worker that next polls at `wake`: a poll is refused
      only up to the moment the probe goes stale, and polls are a quarter second apart. */
  function PollFuel(cfg: BreakerConfig, b: Breaker, wake: real): nat {
    var from := MaxReal(wake, b.openedAt);
    if from > StaleAfter(cfg, b) then 0 else ((StaleAfter(cfg, b) - from) * 4.0).Floor + 1
  }

  function Avail(b: Bucket, t: real): real { Refill(b, t).tokens }

  /** A waiting worker is let down only if its token is not there when it wakes. */
  function WaitFuel(b: Bucket, wake: real): nat { if Avail(b, wake) >= 1.0 then 0 else 1 }

  function Fuel(c: Config, k: Control, st: Stage): nat {
    match st
    case Gate(_, wake) => PollFuel(c.breaker, k.breaker, wake)
    case Acquire(_, wake) => WaitFuel(k.bucket, wake)
    case _ => 0
  }

  function FuelSum(c: Config, k: Control, ws: seq<Stage>): nat {
    if ws == [] then 0 else Fuel(c, k, ws[0]) + FuelSum(c, k, ws[1..])
  }

  /** The most that one worker can wait between two steps of progress. */
  function Patience(c: Config): nat
    requires ValidConfig(c)
  {
    ((c.breaker.cooldown + c.breaker.probeTimeout) * 4.0).Floor + 1
  }

  lemma FuelBound(c: Config, k: Control, st: Stage)
    requires ValidConfig(c)
    ensures Fuel(c, k, st) <= Patience(c)
  {
    hide Avail;
  }

  lemma {:induction false} FuelSumBound(c: Config, k: Control, ws: seq<Stage>)
    requires ValidConfig(c)
    ensures FuelSum(c, k, ws) <= |ws| * Patience(c)
  {
    hide Fuel, Patience;
    if ws == [] {
    } else {
      FuelSumBound(c, k, ws[1..]);
      FuelBound(c, k, ws[0]);
      assert |ws| * Patience(c) == |ws[1..]| * Patience(c) + Patience(c);
    }
  }

  lemma {:induction false} FuelSumUpdate(c: Config, k: Control, ws: seq<Stage>, w: nat, st: Stage)
    requires w < |ws|
    ensures FuelSum(c, k, ws[w := st]) + Fuel(c, k, ws[w]) == FuelSum(c, k, ws) + Fuel(c, k, st)
  {
    hide Fuel;
    if w > 0 {
      assert ws[w := st][1..] == ws[1..][w - 1 := st];
      FuelSumUpdate(c, k, ws[1..], w - 1, st);
    } else {
      assert ws[w := st][1..] == ws[1..];
    }
  }

  lemma {:induction false} FuelSumMono(c: Config, k: Control, k': Control, ws: seq<Stage>)
    requires forall st :: Fuel(c, k', st) <= Fuel(c, k, st)
    ensures FuelSum(c, k', ws) <= FuelSum(c, k, ws)
  {
    if ws == [] {
    } else {
      FuelSumMono(c, k, k', ws[1..]);
    }
  }

  /** A refused poll uses up fuel: it came before the probe was stale, and the next one comes
      a quarter second later. */
  lemma PollBurns(cfg: BreakerConfig, b: Breaker, wake: real, now: real)
    requires ValidBreakerConfig(cfg) && wake <= now && (b.state != Closed ==> b.openedAt <= now)
    requires !Allow(cfg, b, now).granted
    ensures Allow(cfg, b, now).breaker == b
    ensures PollFuel(cfg, b, now + POLL_SECONDS) < PollFuel(cfg, b, wake)
  {
    var d := StaleAfter(cfg, b);
    assert now <= d;
    var x, y := (d - MaxReal(wake, b.openedAt)) * 4.0, (d - (now + POLL_SECONDS)) * 4.0;
    assert y <= x - 1.0;
  }

  /** Refilling early never makes a later token come later. */
  lemma RefillKeepsAvail(b: Bucket, now: real, later: real)
    requires ValidBucket(b) && b.last <= now
    ensures Avail(Refill(b, now), later) >= Avail(b, later)
  {
    hide Mul;
    if later >= now {
      MulAdd(now - b.last, later - now, b.rate);
      MulMono(0.0, later - now, b.rate);
    } else {
      MulMono(MaxReal(0.0, later - b.last), now - b.last, b.rate);
    }
    MulUnits(b.rate);
  }

  lemma AvailGrows(b: Bucket, t: real, u: real)
    requires ValidBucket(b) && t <= u
    ensures Avail(b, t) <= Avail(b, u)
  {
    hide Mul;
    MulMono(MaxReal(0.0, t - b.last), MaxReal(0.0, u - b.last), b.rate);
  }

  /** A pass without a token burns the waiter's fuel: it was let down, and it now sleeps until
      the bucket as it stands will have its token. */
  lemma WaitBurns(b: Bucket, wake: real, now: real)
    requires ValidBucket(b) && b.last <= now && wake <= now && TryTake(b, now).1.Wait?
    ensures WaitFuel(b, wake) == 1
    ensures TryTake(b, now).0 == Refill(b, now)
    ensures WaitFuel(Refill(b, now), now + TryTake(b, now).1.seconds) == 0
  {
    AvailGrows(b, wake, now);
    WaitSuffices(b, now, now + TryTake(b, now).1.seconds);
    hide Mul;
  }

  lemma PassWaits(c: Config, s: State, e: Event)
    requires ValidConfig(c) && Probed(s) && e.Pass? && Enabled(c, s, e) && Step(c, s, e).workers[e.w].Gate?
    ensures var s' := Step(c, s, e);
      && s'.workers == s.workers[e.w := s'.workers[e.w]]
      && s'.control == s.control
      && Fuel(c, s.control, s'.workers[e.w]) < Fuel(c, s.control, s.workers[e.w])
  {
    hide Bump, PollFuel, WaitFuel;
    assert !Allow(c.breaker, s.control.breaker, e.at).granted by { hide Allow; }
    PollBurns(c.breaker, s.control.breaker, s.workers[e.w].wake, e.at);
    hide Allow;
  }

  lemma TokenWaits(c: Config, s: State, e: Event)
    requires BucketOk(c, s) && e.Token? && Enabled(c, s, e) && Step(c, s, e).workers[e.w].Acquire?
    ensures var s' := Step(c, s, e);
      && s'.workers == s.workers[e.w := s'.workers[e.w]]
      && s'.control == s.control.(bucket := Refill(s.control.bucket, e.at))
      && Fuel(c, s'.control, s'.workers[e.w]) == 0 && Fuel(c, s.control, s.workers[e.w]) == 1
  {
    hide PollFuel, WaitFuel, TryTake, Refill;
    assert TryTake(s.control.bucket, e.at).1.Wait?;
    WaitBurns(s.control.bucket, s.workers[e.w].wake, e.at);
  }

  lemma FuelAfterRefill(c: Config, k: Control, now: real, st: Stage)
    requires ValidBucket(k.bucket) && k.bucket.last <= now
    ensures Fuel(c, k.(bucket := Refill(k.bucket, now)), st) <= Fuel(c, k, st)
  {
    hide PollFuel;
    if st.Acquire? { RefillKeepsAvail(k.bucket, now, st.wake); }
    hide Avail, Refill;
  }

  lemma WaitingKind(c: Config, s: State, e: Event)
    requires Enabled(c, s, e) && Waits(s, Step(c, s, e), e)
    ensures (e.Pass? && Step(c, s, e).workers[e.w].Gate?) || (e.Token? && Step(c, s, e).workers[e.w].Acquire?)
  {
    hide Act;
  }

  lemma WaitingBurnsFuel(c: Config, s: State, e: Event)
    requires ValidConfig(c) && Probed(s) && BucketOk(c, s) && Enabled(c, s, e)
    requires |Step(c, s, e).workers| == |s.workers| && Waits(s, Step(c, s, e), e)
    ensures FuelSum(c, Step(c, s, e).control, Step(c, s, e).workers) < FuelSum(c, s.control, s.workers)
  {
    var s' := Step(c, s, e);
    WaitingKind(c, s, e);
    if e.Pass? {
      PassWaits(c, s, e);
      hide Step, Fuel, FuelSum;
      FuelSumUpdate(c, s.control, s.workers, e.w, s'.workers[e.w]);
    } else {
      TokenWaits(c, s, e);
      hide Step, Fuel, FuelSum, Refill;
      forall st ensures Fuel(c, s'.control, st) <= Fuel(c, s.control, st) {
        FuelAfterRefill(c, s.control, e.at, st);
      }
      FuelSumUpdate(c, s'.control, s.workers, e.w, s'.workers[e.w]);
      FuelSumUpdate(c, s.control, s.workers, e.w, Idle);
      FuelSumUpdate(c, s'.control, s.workers, e.w, Idle);
      FuelSumMono(c, s.control, s'.control, s.workers[e.w := Idle]);
    }
  }

  // ---------------------------------------------------------------- termination

  /** The longest that all workers together can wait between two steps of progress. */
  function Span(c: Config): nat
    requires ValidConfig(c)
  {
    c.concurrency * Patience(c)
  }

  function Rank(c: Config, s: State): int
    requires ValidConfig(c)
  {
    Work(c, s) * (Span(c) + 1) + FuelSum(c, s.control, s.workers)
  }

  ghost predicate Live(c: Config, s: State) {
    Inv(c, s) && BucketOk(c, s)
  }

  lemma LiveParts(c: Config, s: State)
    requires Live(c, s)
    ensures Counted(c, s) && Sound(s) && Probed(s) && BucketOk(c, s) && Draining(c, s)
    ensures |s.workers| == c.concurrency
  {
    hide Sound, Located, Draining, InAgreement, Traced, CallsTraced, Probed, BucketOk;
  }

  lemma LiveKept(c: Config, s: State, e: Event)
    requires ValidConfig(c) && Live(c, s) && Enabled(c, s, e)
    ensures Live(c, Step(c, s, e))
  {
    hide Inv, BucketOk, Step;
    StepInv(c, s, e);
    BucketOkKept(c, s, e);
  }

  lemma InitLive(c: Config)
    requires ValidConfig(c)
    ensures Live(c, Init(c))
  {
    InitInv(c);
    hide Inv;
  }

  lemma RankArithmetic(work: int, work': int, fuel: int, fuel': int, span: int)
    requires 0 <= span && 0 <= fuel && fuel' <= span
    requires work' <= work - 1 || (work' <= work && fuel' < fuel)
    ensures work' * (span + 1) + fuel' < work * (span + 1) + fuel
  {
    if work' <= work - 1 {
      assert work' * (span + 1) <= (work - 1) * (span + 1);
    } else {
      assert work' * (span + 1) <= work * (span + 1);
    }
  }

  lemma FuelWithinSpan(c: Config, s: State)
    requires ValidConfig(c) && |s.workers| == c.concurrency
    ensures FuelSum(c, s.control, s.workers) <= Span(c)
  {
    FuelSumBound(c, s.control, s.workers);
  }

  /** Every step, whoever takes it and whatever the upstream answers, lowers the measure. */
  lemma StepLowersRank(c: Config, s: State, e: Event)
    requires ValidConfig(c) && Live(c, s) && Enabled(c, s, e)
    ensures Rank(c, Step(c, s, e)) < Rank(c, s)
  {
    hide Step, Work, FuelSum, Live, Waits, Enabled, Counted, Sound, Probed, BucketOk, Draining, Patience, Span;
    hide ValidConfig;
    var s' := Step(c, s, e);
    LiveParts(c, s);
    LiveKept(c, s, e);
    LiveParts(c, s');
    WorkDrops(c, s, e);
    if Waits(s, s', e) { WaitingBurnsFuel(c, s, e); }
    FuelWithinSpan(c, s');
    RankArithmetic(Work(c, s), Work(c, s'), FuelSum(c, s.control, s.workers),
                   FuelSum(c, s'.control, s'.workers), Span(c));
  }

  lemma RankBounds(c: Config, s: State)
    requires ValidConfig(c) && Live(c, s)
    ensures 0 <= Rank(c, s)
  {
    LiveParts(c, s);
    WorkBounds(c, s);
    hide Work, FuelSum, Live, Counted, Sound, Probed, BucketOk, Draining, Span;
    assert 0 <= Work(c, s) * (Span(c) + 1);
  }

  lemma {:induction false} RunLowersRank(c: Config, s: State, es: seq<Event>)
    requires ValidConfig(c) && Live(c, s) && Feasible(c, s, es)
    ensures Live(c, Exec(c, s, es)) && Rank(c, Exec(c, s, es)) + |es| <= Rank(c, s)
  {
    if es == [] {
    } else {
      hide Live, Step, Rank;
      RunLowersRank(c, s, Front(es));
      StepLowersRank(c, Exec(c, s, Front(es)), Last(es));
      LiveKept(c, Exec(c, s, Front(es)), Last(es));
    }
  }

  /** How many steps a job can take at most: a number fixed by its input and configuration. */
  function StepBound(c: Config): int
    requires ValidConfig(c)
  {
    (7 * |c.rows| + 4 * BudgetLimit(|c.rows|) + 2 * c.concurrency + 3) * (Span(c) + 1)
  }

  lemma {:induction false} NoFuel(c: Config, k: Control, ws: seq<Stage>)
    requires forall w :: 0 <= w < |ws| ==> ws[w] == Idle
    ensures FuelSum(c, k, ws) == 0
  {
    if ws == [] {
    } else {
      NoFuel(c, k, ws[1..]);
    }
  }

  lemma InitRank(c: Config)
    requires ValidConfig(c)
    ensures Rank(c, Init(c)) == StepBound(c)
  {
    var ws := Init(c).workers;
    AllIdle(ws);
    NoFuel(c, Init(c).control, ws);
    assert Items([]) == 0;
    hide TallyOf, FuelSum, Span, IdleWorkers, BudgetLimit;
    assert Work(c, Init(c)) == 7 * |c.rows| + 4 * BudgetLimit(|c.rows|) + 2 * c.concurrency + 3;
  }

  /** Termination, first half: no run over a finite input is longer than `StepBound`, whatever
      the upstream answers, however the workers interleave, and whatever the clock reads. */
  lemma {:induction false} RunsAreBounded(c: Config, es: seq<Event>)
    requires ValidConfig(c) && Feasible(c, Init(c), es)
    ensures |es| <= StepBound(c)
  {
    InitLive(c);
    RunLowersRank(c, Init(c), es);
    RankBounds(c, Exec(c, Init(c), es));
    InitRank(c);
  }

  lemma BusyStep(c: Config, s: State, w: nat) returns (e: Event)
    requires w < |s.workers| && !s.workers[w].Idle? && !s.workers[w].Exited?
    ensures Enabled(c, s, e) && !e.Cancel?
  {
    match s.workers[w]
    case Gate(_, wake) => e := Pass(w, MaxReal(s.now, wake));
    case Acquire(_, wake) => e := Token(w, MaxReal(s.now, wake));
    case Calling(_) => e := Answer(w, s.now, TransportError, 0.0, 0.0);
    case Pausing(_, _, _, wake) => e := Resume(w, MaxReal(s.now, wake), 0.0);
  }

  /** Termination, second half: an unfinished job is never stuck. Some step other than a cancel
      is always possible, so a run that cannot be continued has joined all its workers. */
  lemma NeverStuck(c: Config, s: State) returns (e: Event)
    requires ValidConfig(c) && Inv(c, s) && s.ingest != Finished
    ensures Enabled(c, s, e) && !e.Cancel?
  {
    if s.ingest.Reading? {
      e := Pull(s.now);
    } else if busy: nat :| busy < |s.workers| && !s.workers[busy].Idle? && !s.workers[busy].Exited? {
      e := BusyStep(c, s, busy);
    } else {
      hide TallyOf, Items, Shutdowns, InAgreement, Located, Traced, CallsTraced, Sound, Probed;
      if idle: nat :| idle < |s.workers| && s.workers[idle].Idle? {
        TallyBounds(s.workers);
        TallyPresent(s.workers, idle);
        QueueBounds(s.queue);
        e := if s.queue != [] then Get(idle, s.now) else if s.ingest.Putting? then Put(s.now) else Close(s.now);
      } else {
        AllExited(s.workers);
        QueueBounds(s.queue);
        if s.ingest == Closing(c.concurrency) { e := Join(s.now); } else { e := Close(s.now); }
      }
    }
  }

  lemma EveryoneLeft(ws: seq<Stage>, w: nat)
    requires w < |ws| && TallyOf(ws).exited == |ws|
    ensures ws[w] == Exited
  {
    hide TallyOf;
    TallyBounds(ws);
    TallyPresent(ws, w);
    OneBounds(ws[w]);
  }

  /** The two halves together: a run that no step but a cancel can continue has ended the job,
      with every worker gone and every ingested item resolved by exactly one row. */
  lemma JobEnds(c: Config, es: seq<Event>)
    requires ValidConfig(c) && Feasible(c, Init(c), es)
    requires forall e :: Enabled(c, Exec(c, Init(c), es), e) ==> e.Cancel?
    ensures var s := Exec(c, Init(c), es);
      && |es| <= StepBound(c) && s.ingest.Finished?
      && (forall w :: 0 <= w < |s.workers| ==> s.workers[w] == Exited)
      && (forall i: nat :: Resolved(s.books.log, i) == if i < s.counts.ingested then 1 else 0)
  {
    InitInv(c);
    RunInv(c, Init(c), es);
    RunsAreBounded(c, es);
    hide StepBound, Feasible, Inv, Enabled, TallyOf, Resolved;
    var s := Exec(c, Init(c), es);
    InvSound(c, s);
    if !s.ingest.Finished? {
      var e := NeverStuck(c, s);
      assert false;
    }
    ExactlyOnce(c, es);
    forall w | 0 <= w < |s.workers| ensures s.workers[w] == Exited { EveryoneLeft(s.workers, w); }
  }
}
