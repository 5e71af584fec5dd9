// What the rows of a job say about its input: how many rows are taken in, which kind of input
// each result row answers, and why it ended the way it did.

module JobOutcomes {
  import opened Models
  import opened Retry
  import opened RateLimit
  import opened Job
  import opened JobLedger
  import opened JobCustody
  import opened JobAttempts
  import opened JobRuns

  // ---------------------------------------------------------------- how much is ingested

  /** All rows, or the live-item cap; a cap of 0 still lets one row in. */
  function Quota(c: Config): nat {
    if c.maxItems.None? then |c.rows| else Min(|c.rows|, Max(1, c.maxItems.value))
  }

  predicate InProgress(i: Ingest) { i.Reading? || i.Putting? }

  predicate IngestOk(c: Config, s: State) {
    && s.counts.ingested <= Quota(c)
    && (InProgress(s.ingest) ==> s.next == s.counts.ingested)
    && (s.ingest.Putting? ==> s.counts.ingested >= 1)
    && (s.ingest.Reading? && s.next < |c.rows| ==> s.counts.ingested < Quota(c))
    && (!InProgress(s.ingest) ==> s.flags.cancelled || s.flags.aborted || s.counts.ingested == Quota(c))
    && (!InProgress(s.ingest) ==> s.next == s.counts.ingested + (if s.counts.ingested < Quota(c) then 1 else 0))
  }

  lemma FeedKeepsQuota(c: Config, s: State, e: Event)
    requires IngestOk(c, s) && Enabled(c, s, e) && !ByWorker(e)
    ensures IngestOk(c, Step(c, s, e))
  {
    hide OnGet, OnPass, OnToken, OnAnswer, OnResume;
  }

  lemma WorkKeepsQuota(c: Config, s: State, s': State, w: nat)
    requires IngestOk(c, s) && Worked(s, s', w)
    ensures IngestOk(c, s')
  {
    hide BudgetLimit, Subject, Bump, RowFits;
  }

  lemma StartsWithinQuota(c: Config)
    ensures IngestOk(c, Init(c))
  {
  }

  lemma SameIngest(c: Config, s: State, s0: State)
    requires s0 == s.(now := s0.now) && Sound(s) && IngestOk(c, s)
    ensures Sound(s0) && IngestOk(c, s0)
  {
  }

  lemma {:induction false} QuotaKept(c: Config, es: seq<Event>)
    requires ValidConfig(c) && Feasible(c, Init(c), es)
    ensures IngestOk(c, Exec(c, Init(c), es))
  {
    if es == [] {
      StartsWithinQuota(c);
    } else {
      var p, e := Exec(c, Init(c), Front(es)), Last(es);
      hide IngestOk, Worked, Act, Sound, Inv;
      QuotaKept(c, Front(es));
      if ByWorker(e) {
        InitInv(c);
        RunInv(c, Init(c), Front(es));
        InvSound(c, p);
        var p0 := p.(now := e.at);
        SameIngest(c, p, p0);
        ActWorks(c, p0, e);
        WorkKeepsQuota(c, p0, Act(c, p0, e), e.w);
      } else {
        FeedKeepsQuota(c, p, e);
      }
    }
  }

  /** Completeness. A job never takes in more than its quota of rows, and one that ends with
      neither a cancel nor an abort has taken in all of it: every row of the input, or as many as
      the item cap allows, each answered by exactly one result row. Every row that is read is counted,
      but for one: an ingest that stops short of its quota has read the next row and dropped it. */
  lemma EverythingIngested(c: Config, es: seq<Event>)
    requires ValidConfig(c) && Feasible(c, Init(c), es)
    ensures var s := Exec(c, Init(c), es);
      && s.counts.ingested <= Quota(c)
      && s.next == s.counts.ingested + (if !InProgress(s.ingest) && s.counts.ingested < Quota(c) then 1 else 0)
      && (s.ingest.Finished? && !s.flags.cancelled && !s.flags.aborted ==>
            && s.counts.ingested == Quota(c)
            && forall i: nat :: Resolved(s.books.log, i) == if i < Quota(c) then 1 else 0)
  {
    QuotaKept(c, es);
    if Exec(c, Init(c), es).ingest.Finished? { ExactlyOnce(c, es); }
  }

  /** The job has taken in no more rows than its item cap. */
  predicate WithinCap(c: Config, s: State) { c.maxItems.Some? ==> s.counts.ingested <= c.maxItems.value }

  lemma FirstRowEnters(c: Config) returns (es: seq<Event>)
    requires ValidConfig(c) && c.rows != []
    ensures Feasible(c, Init(c), es) && Exec(c, Init(c), es).counts.ingested == 1
  {
    es := [Pull(c.bucket.last)];
    assert Front(es) == [] && Feasible(c, Init(c), []);
  }

  lemma NothingIngested(c: Config)
    ensures Feasible(c, Init(c), []) && Exec(c, Init(c), []).counts.ingested == 0
  {
  }

  /** The item cap holds in every run exactly when it is at least 1, or is 0 and there is no row: it
      is looked at after a row has been taken in, so that a cap of 0 lets one in. */
  lemma ItemCapExactly(c: Config)
    requires ValidConfig(c) && c.maxItems.Some?
    ensures (c.maxItems.value >= 1 || (c.maxItems.value == 0 && c.rows == []))
      <==> forall es :: Feasible(c, Init(c), es) ==> WithinCap(c, Exec(c, Init(c), es))
  {
    hide Exec, Feasible;
    if c.maxItems.value >= 1 || (c.maxItems.value == 0 && c.rows == []) {
      forall es | Feasible(c, Init(c), es) ensures WithinCap(c, Exec(c, Init(c), es)) { QuotaKept(c, es); }
    } else if c.rows == [] {
      assert Feasible(c, Init(c), []) && !WithinCap(c, Exec(c, Init(c), [])) by { NothingIngested(c); }
    } else {
      var es := FirstRowEnters(c);
      assert !WithinCap(c, Exec(c, Init(c), es));
    }
  }

  // ---------------------------------------------------------------- why each row is what it is

  predicate IsPrompt(c: Config, i: nat) { i < |c.rows| && c.rows[i].Prompt? }
  predicate IsMalformed(c: Config, i: nat) { i < |c.rows| && c.rows[i].Malformed? }

  /** The label that a final verdict puts on a row. */
  function Judged(kind: FailureClass): FailureClass {
    if kind == Throttled || kind == Transient then TransientExhausted else kind
  }

  /** A row about malformed input costs no call. A row about a prompt is a success after a
      successful last call; or it failed at the gate of a cancelled or aborted job; or it bears
      the label of its last call's verdict. A fatal verdict is never retried or relabelled. */
  predicate Explained(c: Config, row: OutRow) {
    var i, t := row.task.idx, row.task.trace;
    match row
    case Done(_, _, _) => IsPrompt(c, i) && t != [] && Last(t).kind == Success && row.task.attempt == |t|
    case Failed(_, kind, attempt, status) =>
      if IsMalformed(c, i) then kind == InvalidInput && attempt == 1 && t == [] && status == None
      else
        && IsPrompt(c, i) && attempt == Max(1, |t|)
        && (t == [] ==> kind == Cancelled || IsFatal(kind))
        && (t != [] ==>
             && Last(t).kind != Success
             && (kind == Cancelled || IsFatal(kind) || kind == Judged(Last(t).kind))
             && (IsFatal(Last(t).kind) || Last(t).kind == InvalidInput ==> kind == Last(t).kind))
  }

  predicate EntryFits(c: Config, x: Entry) {
    match x
    case Item(i) => IsPrompt(c, i)
    case Broken(i) => IsMalformed(c, i)
    case Shutdown => true
  }

  predicate StageFits(c: Config, st: Stage) { st.Idle? || st.Exited? || IsPrompt(c, st.task.idx) }

  ghost predicate Accounted(c: Config, s: State) {
    && (s.ingest.Putting? ==> EntryFits(c, s.ingest.entry))
    && (forall i :: 0 <= i < |s.queue| ==> EntryFits(c, s.queue[i]))
    && (forall w :: 0 <= w < |s.workers| ==> StageFits(c, s.workers[w]))
    && (forall i :: 0 <= i < |s.books.log| ==> Explained(c, s.books.log[i]))
  }

  lemma FeedKeepsAccounts(c: Config, s: State, e: Event)
    requires Accounted(c, s) && IngestOk(c, s) && Enabled(c, s, e) && !ByWorker(e)
    ensures Accounted(c, Step(c, s, e))
  {
    hide OnGet, OnPass, OnToken, OnAnswer, OnResume, Explained, StageFits;
  }

  /** What a worker's step leaves: a stage about a prompt, and at most one row, explained. */
  predicate LeavesExplained(c: Config, s: State, s': State, w: nat) {
    && w < |s'.workers| && StageFits(c, s'.workers[w])
    && (s'.books.log == s.books.log || (s'.books.log != [] && Explained(c, Last(s'.books.log))))
  }

  lemma PassExplained(c: Config, s: State, w: nat)
    requires w < |s.workers| && s.workers[w].Gate? && FlagsOk(s.flags)
    requires StageFits(c, s.workers[w]) && StageOk(c, s.workers[w])
    ensures LeavesExplained(c, s, OnPass(c, s, w), w)
  {
    hide Allow, Bump, BackoffSum;
    var t := s.workers[w].task.trace;
    if t != [] { assert Tabled(t[|t| - 1]); }
  }

  lemma DecideExplained(c: Config, s: State, w: nat, t: Task, v: Verdict, status: Option<int>, delay: real)
    requires w < |s.workers| && IsPrompt(c, t.idx) && t.attempt == |t.trace| >= 1 && Last(t.trace) == v
    requires Tabled(v) && v.kind != Success && v.kind != Cancelled && !IsFatal(v.kind)
    ensures LeavesExplained(c, s, Decide(s, w, t, v, status, delay), w)
  {
    hide Bump, BudgetLimit;
  }

  lemma LogsStay(c: Config, s: State, kind: FailureClass)
    ensures Returned(c, s, kind).books == s.books && SlowDown(c, Returned(c, s, kind)).books == s.books
  {
  }

  lemma AnswerExplained(c: Config, s: State, w: nat, reply: Reply, pause: real, delay: real)
    requires w < |s.workers| && s.workers[w].Calling?
    requires StageFits(c, s.workers[w]) && StageOk(c, s.workers[w])
    ensures LeavesExplained(c, s, OnAnswer(c, s, w, reply, pause, delay), w)
  {
    var v, task, status := Classify(reply), Tried(s.workers[w], reply), StatusOf(reply);
    assert task.attempt == |task.trace| && Last(task.trace) == v && IsPrompt(c, task.idx);
    assert Tabled(v) && v.kind != Cancelled;
    hide Classify, Bump, BudgetLimit, BackoffSum, Decide, Tried, StageOk;
    var s1 := Returned(c, s, v.kind);
    if v.kind != Success && !IsFatal(v.kind) {
      DecideExplained(c, s1, w, task, v, status, delay);
      DecideExplained(c, SlowDown(c, s1), w, task, v, status, delay);
    }
    assert v.kind == Success && reply.Response? ==> Explained(c, Done(task, reply.inputTokens, reply.outputTokens));
    assert IsFatal(v.kind) ==> Explained(c, Failed(task, v.kind, task.attempt, status));
    hide Explained;
    AnswerCases(c, s, w, reply, pause, delay);
    LogsStay(c, s, v.kind);
  }

  lemma GetExplained(c: Config, s: State, w: nat)
    requires w < |s.workers| && s.workers[w].Idle? && s.queue != [] && EntryFits(c, s.queue[0])
    ensures LeavesExplained(c, s, OnGet(s, w), w)
  {
    hide Bump;
  }

  lemma TokenExplained(c: Config, s: State, w: nat)
    requires w < |s.workers| && s.workers[w].Acquire? && StageFits(c, s.workers[w])
    ensures LeavesExplained(c, s, OnToken(s, w), w)
  {
    hide TryTake;
  }

  lemma ActExplained(c: Config, s: State, e: Event)
    requires e.at == s.now && Enabled(c, s, e) && ByWorker(e) && FlagsOk(s.flags)
    requires StageFits(c, s.workers[e.w]) && StageOk(c, s.workers[e.w])
    requires s.queue != [] ==> EntryFits(c, s.queue[0])
    requires s.workers[e.w].Pausing? ==> s.workers[e.w].verdict == Verdict(Throttled, 8)
    ensures LeavesExplained(c, s, Act(c, s, e), e.w)
  {
    hide OnPass, OnAnswer, TryTake, LeavesExplained, BackoffSum, WellTried;
    match e
    case Get(w, _) => GetExplained(c, s, w);
    case Pass(w, _) => PassExplained(c, s, w);
    case Token(w, _) => TokenExplained(c, s, w);
    case Answer(w, _, reply, pause, delay) => AnswerExplained(c, s, w, reply, pause, delay);
    case Resume(w, _, delay) =>
      DecideExplained(c, s, w, s.workers[w].task, s.workers[w].verdict, s.workers[w].status, delay);
  }

  lemma WorkKeepsAccounts(c: Config, s: State, s': State, w: nat)
    requires Accounted(c, s) && Worked(s, s', w) && LeavesExplained(c, s, s', w)
    ensures Accounted(c, s')
  {
    hide StageFits, Explained, BudgetLimit, Bump, EntryFits;
    assert s'.workers == s.workers[w := s'.workers[w]];
    if s'.workers[w].Idle? {
      assert s'.books.log == s.books.log + [s'.books.log[|s.books.log|]];
    }
  }

  lemma WorkerAccounts(c: Config, p: State, e: Event)
    requires Inv(c, p) && Accounted(c, p) && Enabled(c, p, e) && ByWorker(e)
    ensures Accounted(c, Step(c, p, e))
  {
    hide Worked, Act, StageOk, Explained, Counted, Located, Draining, InAgreement, CallsTraced, Probed;
    var p0 := p.(now := e.at);
    assert Sound(p0) && Accounted(c, p0) && Enabled(c, p0, e) && StageOk(c, p0.workers[e.w]);
    assert StageFits(c, p0.workers[e.w]) && (p0.queue != [] ==> EntryFits(c, p0.queue[0]));
    ActWorks(c, p0, e);
    ActExplained(c, p0, e);
    WorkKeepsAccounts(c, p0, Act(c, p0, e), e.w);
  }

  lemma NothingToAccount(c: Config)
    requires ValidConfig(c)
    ensures Accounted(c, Init(c))
  {
  }

  lemma {:induction false} AccountsKept(c: Config, es: seq<Event>)
    requires ValidConfig(c) && Feasible(c, Init(c), es)
    ensures Accounted(c, Exec(c, Init(c), es))
  {
    if es == [] {
      NothingToAccount(c);
    } else {
      var p, e := Exec(c, Init(c), Front(es)), Last(es);
      hide Accounted, IngestOk, Worked, Act, Sound, Inv, LeavesExplained;
      AccountsKept(c, Front(es));
      if ByWorker(e) {
        InitInv(c);
        RunInv(c, Init(c), Front(es));
        WorkerAccounts(c, p, e);
      } else {
        QuotaKept(c, Front(es));
        FeedKeepsAccounts(c, p, e);
      }
    }
  }

  // ---------------------------------------------------------------- why a row was exhausted early

  /** Given up for want of retries although the last verdict allowed more tries. */
  predicate Early(row: OutRow) {
    && row.Failed? && row.kind == TransientExhausted
    && row.task.trace != [] && |row.task.trace| < Last(row.task.trace).cap
  }

  /** No retry can be paid for any more: one has been used, and the next would take more items than
      there are, at five for each. */
  predicate Spent(b: Budget) { b.used >= 1 && 5 * (b.used + 1) > b.total }

  /** A step writes one row at most, and an early one only when the retry budget is spent. */
  predicate EarlyOnlyIfSpent(s: State, s': State) {
    || s'.books.log == s.books.log
    || (&& s'.books.log != [] && Front(s'.books.log) == s.books.log
        && (Early(Last(s'.books.log)) ==> Spent(s.budget)))
  }

  lemma AddedRow(s: State, s': State, row: OutRow)
    requires s'.books.log == s.books.log + [row] && (Early(row) ==> Spent(s.budget))
    ensures EarlyOnlyIfSpent(s, s')
  {
    hide Early, Spent;
    assert Front(s'.books.log) == s.books.log && Last(s'.books.log) == row;
  }

  lemma NoNewRow(s: State, s': State)
    requires s'.books.log == s.books.log
    ensures EarlyOnlyIfSpent(s, s')
  {
  }

  lemma DecideEarly(s: State, w: nat, t: Task, v: Verdict, status: Option<int>, delay: real)
    requires w < |s.workers| && t.attempt == |t.trace| >= 1 && Last(t.trace) == v
    ensures EarlyOnlyIfSpent(s, Decide(s, w, t, v, status, delay))
  {
    hide Bump, EarlyOnlyIfSpent;
    var s' := Decide(s, w, t, v, status, delay);
    if s'.books.log != s.books.log {
      AddedRow(s, s', Last(s'.books.log));
    } else {
      NoNewRow(s, s');
    }
  }

  lemma BudgetStays(c: Config, s: State, kind: FailureClass)
    ensures var s1 := Returned(c, s, kind);
      && s1.budget == s.budget && s1.books == s.books
      && SlowDown(c, s1).budget == s.budget && SlowDown(c, s1).books == s.books
  {
  }

  lemma EarlyAlike(a: State, b: State, s': State)
    requires a.budget == b.budget && a.books == b.books && EarlyOnlyIfSpent(a, s')
    ensures EarlyOnlyIfSpent(b, s')
  {
  }

  lemma AnswerEarly(c: Config, s: State, w: nat, reply: Reply, pause: real, delay: real)
    requires w < |s.workers| && s.workers[w].Calling? && StageOk(c, s.workers[w])
    ensures EarlyOnlyIfSpent(s, OnAnswer(c, s, w, reply, pause, delay))
  {
    var v, task, status := Classify(reply), Tried(s.workers[w], reply), StatusOf(reply);
    assert task.attempt == |task.trace| && Last(task.trace) == v;
    hide Classify, Bump, Decide, Tried, StageOk, OnAnswer, BudgetLimit, EarlyOnlyIfSpent, Returned, SlowDown;
    var s1, s' := Returned(c, s, v.kind), OnAnswer(c, s, w, reply, pause, delay);
    AnswerCases(c, s, w, reply, pause, delay);
    BudgetStays(c, s, v.kind);
    if s'.books.log == s.books.log {
      NoNewRow(s, s');
    } else if s' == Decide(s1, w, task, v, status, delay) {
      DecideEarly(s1, w, task, v, status, delay);
      EarlyAlike(s1, s, s');
    } else if s' == Decide(SlowDown(c, s1), w, task, v, status, delay) {
      DecideEarly(SlowDown(c, s1), w, task, v, status, delay);
      EarlyAlike(SlowDown(c, s1), s, s');
    } else {
      assert !Early(s'.books.log[|s.books.log|]);
      AddedRow(s, s', s'.books.log[|s.books.log|]);
    }
  }

  lemma PassEarly(c: Config, s: State, w: nat)
    requires w < |s.workers| && s.workers[w].Gate? && FlagsOk(s.flags)
    ensures EarlyOnlyIfSpent(s, OnPass(c, s, w))
  {
    hide Bump, Allow;
    var s' := OnPass(c, s, w);
    if s'.books.log != s.books.log { AddedRow(s, s', s'.books.log[|s.books.log|]); }
  }

  lemma GetEarly(s: State, w: nat)
    requires w < |s.workers| && s.workers[w].Idle? && s.queue != []
    ensures EarlyOnlyIfSpent(s, OnGet(s, w))
  {
    hide Bump;
    var s' := OnGet(s, w);
    if s'.books.log != s.books.log { AddedRow(s, s', s'.books.log[|s.books.log|]); }
  }

  lemma StepEarly(c: Config, s: State, e: Event)
    requires Sound(s) && Traced(c, s) && Enabled(c, s, e)
    ensures EarlyOnlyIfSpent(s, Step(c, s, e))
  {
    hide OnGet, OnPass, OnAnswer, Decide, TryTake, EarlyOnlyIfSpent, DelayOk, WellTried, BackoffSum;
    var s0 := s.(now := e.at);
    match e {
      case Get(w, _) => GetEarly(s0, w);
      case Pass(w, _) => PassEarly(c, s0, w);
      case Answer(w, _, reply, pause, delay) =>
        assert StageOk(c, s.workers[w]);
        AnswerEarly(c, s0, w, reply, pause, delay);
      case Resume(w, _, delay) =>
        assert StageOk(c, s.workers[w]);
        DecideEarly(s0, w, s.workers[w].task, s.workers[w].verdict, s.workers[w].status, delay);
      case _ => NoNewRow(s0, Step(c, s, e));
    }
    EarlyAlike(s0, s, Step(c, s, e));
  }

  lemma PartsForEarly(c: Config, s: State)
    requires Inv(c, s)
    ensures Sound(s) && Traced(c, s)
    ensures Spent(s.budget) ==> s.budget.used >= 1 && 5 * (s.budget.used + 1) > s.counts.ingested
  {
  }

  /** A row that was given up below the cap of its last verdict was written at a moment of the run
      at which the retry budget was spent. */
  lemma {:induction false} EarlyRowsMetASpentBudget(c: Config, es: seq<Event>, i: nat) returns (k: nat)
    requires ValidConfig(c) && Feasible(c, Init(c), es)
    requires i < |Exec(c, Init(c), es).books.log| && Early(Exec(c, Init(c), es).books.log[i])
    ensures k < |es| && Feasible(c, Init(c), es[..k])
    ensures var s := Exec(c, Init(c), es[..k]);
      |s.books.log| == i && s.budget.used >= 1 && 5 * (s.budget.used + 1) > s.counts.ingested
    decreases |es|
  {
    hide Step, Enabled, Early, Spent, Inv, Sound, Traced;
    k := 0;
    if es == [] {
    } else {
      var f := Front(es);
      var p := Exec(c, Init(c), f);
      InitInv(c);
      RunInv(c, Init(c), f);
      PartsForEarly(c, p);
      StepEarly(c, p, Last(es));
      if i < |p.books.log| {
        assert p.books.log[i] == Exec(c, Init(c), es).books.log[i];
        k := EarlyRowsMetASpentBudget(c, f, i);
        assert f[..k] == es[..k];
      } else {
        k := |f|;
        assert es[..k] == f;
      }
    }
  }

  /** Row i of the run was written when k events had passed and the retry budget was spent. */
  predicate SpentAt(c: Config, es: seq<Event>, k: nat, i: nat)
    requires k <= |es| && Feasible(c, Init(c), es[..k])
  {
    var s := Exec(c, Init(c), es[..k]);
    |s.books.log| == i && s.budget.used >= 1 && 5 * (s.budget.used + 1) > s.counts.ingested
  }

  /** Every row of every run is explained by its own input row and its own calls, and a row given up
      below the cap of its last verdict by a retry budget spent at that moment. */
  lemma RowsAreExplained(c: Config, es: seq<Event>, i: nat)
    requires ValidConfig(c) && Feasible(c, Init(c), es) && i < |Exec(c, Init(c), es).books.log|
    ensures var row := Exec(c, Init(c), es).books.log[i];
      && Explained(c, row)
      && (Early(row) ==>
           exists k: nat :: k <= |es| && Feasible(c, Init(c), es[..k]) && SpentAt(c, es, k, i))
  {
    hide Exec, Feasible, Explained, Early, Spent;
    AccountsKept(c, es);
    if Early(Exec(c, Init(c), es).books.log[i]) {
      var k := EarlyRowsMetASpentBudget(c, es, i);
      assert SpentAt(c, es, k, i);
    }
  }

  // ---------------------------------------------------------------- throttle events

  function Throttlings(es: seq<Event>): nat {
    if es == [] then 0
    else Throttlings(Front(es)) + (if Last(es).Answer? && Classify(Last(es).reply).kind == Throttled then 1 else 0)
  }

  lemma StepThrottles(c: Config, s: State, e: Event)
    requires Enabled(c, s, e)
    ensures Step(c, s, e).control.controller.throttles
      == s.control.controller.throttles + (if e.Answer? && Classify(e.reply).kind == Throttled then 1 else 0)
  {
    hide Bump, BudgetLimit, Allow, TryTake, Record, SetRate, SpendGuardTrips, DecreaseDue, Classify, DelayOk, Tried;
  }

  /** The reported number of throttle events is the number of 429 answers of the run. */
  lemma {:induction false} ThrottlesCounted(c: Config, es: seq<Event>)
    requires ValidConfig(c) && Feasible(c, Init(c), es)
    ensures Exec(c, Init(c), es).control.controller.throttles == Throttlings(es)
  {
    if es == [] {
    } else {
      hide Step, Classify;
      ThrottlesCounted(c, Front(es));
      StepThrottles(c, Exec(c, Init(c), Front(es)), Last(es));
    }
  }
}
