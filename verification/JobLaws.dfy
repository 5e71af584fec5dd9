// What each step of a worker does, said of the reply, the flags and the numbers themselves: when a
// 429 pauses, when a call is tried again, what the gate of a stopped job writes, and which HTTP
// status a row bears.

module JobLaws {
  import opened Models
  import opened Retry
  import opened RateLimit
  import opened Job
  import opened JobLedger
  import opened JobAttempts
  import opened JobRuns

  // ---------------------------------------------------------------- the pause on a 429

  /** A 429 that says when the quota refills, in a reset header that is a positive number. */
  predicate TellsReset(reply: Reply) { reply.Response? && reply.status == 429 && reply.resetEpoch > 0.0 }

  lemma DecideStage(s: State, w: nat, task: Task, v: Verdict, status: Option<int>, delay: real)
    requires w < |s.workers|
    ensures !Decide(s, w, task, v, status, delay).workers[w].Pausing?
  {
    hide Bump, BudgetLimit;
  }

  lemma DecideSize(s: State, w: nat, task: Task, v: Verdict, status: Option<int>, delay: real)
    requires w < |s.workers|
    ensures |Decide(s, w, task, v, status, delay).workers| == |s.workers|
  {
    hide Bump, BudgetLimit;
  }

  /** An answer suspends its worker in `honor_reset_header` exactly when it is a 429 that tells its
      reset. The worker then wakes after the pause; it has written no row and spent no retry. */
  lemma PausesExactly(c: Config, s: State, e: Event)
    requires e.Answer? && Enabled(c, s, e)
    ensures var s' := Step(c, s, e);
      && |s'.workers| == |s.workers|
      && (s'.workers[e.w].Pausing? <==>
            e.reply.Response? && e.reply.status == 429 && e.reply.resetEpoch > 0.0)
      && (s'.workers[e.w].Pausing? ==>
            && s'.workers[e.w].wake == e.at + e.pause && s'.workers[e.w].task == Tried(s.workers[e.w], e.reply)
            && s'.books == s.books && s'.budget == s.budget
            && s'.control.controller.retries == s.control.controller.retries)
  {
    hide Classify, Bump, BudgetLimit, Record, SetRate, SpendGuardTrips, DecreaseDue, Decide, DelayOk, Tried;
    var s0 := s.(now := e.at);
    var v, status, task := Classify(e.reply), StatusOf(e.reply), Tried(s.workers[e.w], e.reply);
    var s1 := Returned(c, s0, v.kind);
    DecideStage(s1, e.w, task, v, status, e.delay);
    DecideStage(SlowDown(c, s1), e.w, task, v, status, e.delay);
    DecideSize(s1, e.w, task, v, status, e.delay);
    DecideSize(SlowDown(c, s1), e.w, task, v, status, e.delay);
  }

  // ---------------------------------------------------------------- another try

  /** A retry can still be paid for: the first is free, and from then on each takes five items. */
  predicate CanRetry(s: State) { s.budget.used == 0 || 5 * (s.budget.used + 1) <= s.budget.total }

  /** How many tries a reply allows in all: one for an answer that settles the matter, two for a
      malformed one, eight for a 429, five for anything else. */
  function TriesFor(reply: Reply): nat {
    if reply.TransportError? then 5
    else if reply.status == 200 then if reply.malformed then 2 else 1
    else if reply.status in {400, 401, 402, 403, 413, 422} then 1
    else if reply.status == 429 then 8
    else 5
  }

  lemma TriesMeans(reply: Reply)
    ensures Classify(reply).cap == TriesFor(reply)
  {
  }

  /** Worker w is back at the gate with its item, a retry paid for, and may go on at `wake`. */
  predicate TriesAgain(s: State, s': State, w: nat, wake: real)
    requires w < |s.workers| == |s'.workers|
  {
    && s'.workers[w].Gate? && s'.workers[w].wake == wake && s'.books == s.books
    && s'.budget == s.budget.(used := s.budget.used + 1)
    && s'.control.controller.retries == s.control.controller.retries + 1
  }

  /** It has given up: one row, no retry spent, and free again. */
  predicate GivesUp(s: State, s': State, w: nat)
    requires w < |s.workers| == |s'.workers|
  {
    && s'.workers[w].Idle? && s'.budget == s.budget && |s'.books.log| == |s.books.log| + 1
    && s'.control.controller.retries == s.control.controller.retries
  }

  lemma DecideRetries(s: State, w: nat, task: Task, v: Verdict, status: Option<int>, delay: real)
    requires w < |s.workers|
    ensures var s' := Decide(s, w, task, v, status, delay);
      && |s'.workers| == |s.workers|
      && if task.attempt < v.cap && CanRetry(s) then TriesAgain(s, s', w, s.now + delay) else GivesUp(s, s', w)
  {
    hide Bump;
  }

  lemma RetriesAlike(a: State, b: State, s': State, w: nat, wake: real)
    requires w < |a.workers| == |b.workers| == |s'.workers| && a.books == b.books && a.budget == b.budget
    requires a.control.controller.retries == b.control.controller.retries
    ensures TriesAgain(a, s', w, wake) == TriesAgain(b, s', w, wake) && GivesUp(a, s', w) == GivesUp(b, s', w)
    ensures CanRetry(a) == CanRetry(b)
  {
  }

  lemma SideEffects(c: Config, s: State, kind: FailureClass)
    ensures var s1 := Returned(c, s, kind);
      && s1.books == s.books && s1.budget == s.budget && s1.workers == s.workers && s1.now == s.now
      && s1.control.controller.retries == s.control.controller.retries
    ensures var s2 := SlowDown(c, Returned(c, s, kind));
      && s2.books == s.books && s2.budget == s.budget && s2.workers == s.workers && s2.now == s.now
      && s2.control.controller.retries == s.control.controller.retries
  {
    hide Record, SetRate, DecreaseDue;
  }

  lemma SuccessGivesUp(c: Config, s: State, w: nat, task: Task, reply: Reply)
    requires w < |s.workers| && reply.Response?
    ensures var s' := Succeed(c, s, w, task, reply); |s'.workers| == |s.workers| && GivesUp(s, s', w)
  {
    hide SetRate, SpendGuardTrips;
  }

  lemma FatalGivesUp(s: State, w: nat, task: Task, kind: FailureClass, status: Option<int>)
    requires w < |s.workers|
    ensures var s' := Fatal(s, w, task, kind, status); |s'.workers| == |s.workers| && GivesUp(s, s', w)
  {
    hide Bump;
  }

  lemma PauseSplits(c: Config, s: State, w: nat, reply: Reply, pause: real, delay: real)
    requires w < |s.workers| && s.workers[w].Calling? && !TellsReset(reply)
    ensures var v, status, task := Classify(reply), StatusOf(reply), Tried(s.workers[w], reply);
      var s1, s' := Returned(c, s, v.kind), OnAnswer(c, s, w, reply, pause, delay);
      if v.kind == Success then reply.Response? && s' == Succeed(c, s1, w, task, reply)
      else if IsFatal(v.kind) then s' == Fatal(s1, w, task, v.kind, status)
      else s' == Decide(if v.kind == Throttled then SlowDown(c, s1) else s1, w, task, v, status, delay)
  {
    hide Classify, Record, Succeed, Fatal, Decide, SlowDown, Tried, Returned;
  }

  lemma SettledOnce(reply: Reply)
    ensures Classify(reply).kind == Success || IsFatal(Classify(reply).kind) ==> TriesFor(reply) == 1
  {
  }

  /** What an answer that does not pause leads to: another try, after the back-off, exactly when the
      tries so far are fewer than the reply allows and a retry can be paid for; else a row. */
  lemma RetriesExactly(c: Config, s: State, e: Event)
    requires e.Answer? && Enabled(c, s, e) && StageOk(c, s.workers[e.w]) && !TellsReset(e.reply)
    ensures var s', tries := Step(c, s, e), |s.workers[e.w].task.trace| + 1;
      && |s'.workers| == |s.workers|
      && if tries < TriesFor(e.reply) && CanRetry(s) then TriesAgain(s, s', e.w, e.at + e.delay)
         else GivesUp(s, s', e.w)
  {
    var s0 := s.(now := e.at);
    var v, status, task := Classify(e.reply), StatusOf(e.reply), Tried(s.workers[e.w], e.reply);
    assert task.attempt == |s.workers[e.w].task.trace| + 1;
    TriesMeans(e.reply);
    SettledOnce(e.reply);
    hide Classify, Returned, SlowDown, Decide, Succeed, Fatal, OnAnswer, Tried, TriesFor, TriesAgain, GivesUp, CanRetry;
    hide DelayOk, StageOk, StatusOf;
    PauseSplits(c, s0, e.w, e.reply, e.pause, e.delay);
    SideEffects(c, s0, v.kind);
    var s1 := Returned(c, s0, v.kind);
    var s2, s' := if v.kind == Throttled then SlowDown(c, s1) else s1, Step(c, s, e);
    if v.kind == Success {
      SuccessGivesUp(c, s1, e.w, task, e.reply);
      RetriesAlike(s1, s, s', e.w, e.at + e.delay);
    } else if IsFatal(v.kind) {
      FatalGivesUp(s1, e.w, task, v.kind, status);
      RetriesAlike(s1, s, s', e.w, e.at + e.delay);
    } else {
      DecideRetries(s2, e.w, task, v, status, e.delay);
      RetriesAlike(s2, s, s', e.w, e.at + e.delay);
    }
  }

  /** And what the end of a pause leads to: the same, a 429 allowing eight tries. */
  lemma ResumesExactly(c: Config, s: State, e: Event)
    requires e.Resume? && Enabled(c, s, e) && Sound(s) && StageOk(c, s.workers[e.w])
    ensures var s', tries := Step(c, s, e), |s.workers[e.w].task.trace|;
      && |s'.workers| == |s.workers|
      && if tries < 8 && CanRetry(s) then TriesAgain(s, s', e.w, e.at + e.delay) else GivesUp(s, s', e.w)
  {
    var s0, st := s.(now := e.at), s.workers[e.w];
    assert st.task.attempt == |st.task.trace| && st.verdict == Verdict(Throttled, 8);
    hide Decide, TriesAgain, GivesUp, CanRetry, StageOk;
    DecideRetries(s0, e.w, st.task, st.verdict, st.status, e.delay);
    RetriesAlike(s0, s, Step(c, s, e), e.w, e.at + e.delay);
  }

  /** The jitter is full: once a call is out, it may be answered at any later time with any reply,
      and the back-off after it may be any length from nothing up to the envelope of its try. */
  lemma AnyJitter(c: Config, s: State, w: nat, at: real, reply: Reply, pause: real, delay: real)
    requires w < |s.workers| && s.workers[w].Calling? && 0.0 <= c.retryBase && 0.0 <= c.retryCap
    ensures Enabled(c, s, Answer(w, at, reply, pause, delay))
      <==> s.now <= at && 0.0 <= pause
           && 0.0 <= delay <= BackoffCeiling(c.retryBase, c.retryCap, s.workers[w].task.attempt)
  {
    Pow2Positive(s.workers[w].task.attempt);
    MulMono(0.0, Pow2(s.workers[w].task.attempt) as real, c.retryBase);
    hide Pow2;
  }

  // ---------------------------------------------------------------- sleeps

  /** A step leaves every other worker where it is. */
  lemma OthersStay(c: Config, s: State, e: Event, w: nat)
    requires Enabled(c, s, e) && w < |s.workers| && (ByWorker(e) ==> e.w != w)
    ensures var s' := Step(c, s, e); |s'.workers| == |s.workers| && s'.workers[w] == s.workers[w]
  {
    hide Bump, BudgetLimit, Allow, TryTake, Record, SetRate, SpendGuardTrips, DecreaseDue, Classify, DelayOk, Tried;
  }

  lemma {:induction false} AsleepStays(c: Config, s: State, mid: seq<Event>, w: nat)
    requires Feasible(c, s, mid) && w < |s.workers|
    requires forall i :: 0 <= i < |mid| && ByWorker(mid[i]) ==> mid[i].w != w
    ensures var s' := Exec(c, s, mid); |s'.workers| == |s.workers| && s'.workers[w] == s.workers[w]
  {
    if mid == [] {
    } else {
      hide Step, Enabled;
      AsleepStays(c, s, Front(mid), w);
      assert Last(mid) == mid[|mid| - 1];
      OthersStay(c, Exec(c, s, Front(mid)), Last(mid), w);
    }
  }

  /** Only worker w itself goes on with what it does: x is its next turn after that of the state s. */
  predicate NextTurn(c: Config, s: State, mid: seq<Event>, x: Event, w: nat) {
    && w < |s.workers| && Feasible(c, s, mid) && Enabled(c, Exec(c, s, mid), x) && ByWorker(x) && x.w == w
    && forall i :: 0 <= i < |mid| && ByWorker(mid[i]) ==> mid[i].w != w
  }

  lemma NextFits(c: Config, s: State, mid: seq<Event>, x: Event, w: nat)
    requires NextTurn(c, s, mid, x, w)
    ensures s.workers[w].Idle? ==> x.Get?
    ensures s.workers[w].Gate? ==> x.Pass? && x.at >= s.workers[w].wake
    ensures s.workers[w].Pausing? ==> x.Resume? && x.at >= s.workers[w].wake
  {
    AsleepStays(c, s, mid, w);
    hide Exec, Feasible, DelayOk;
  }

  lemma ReachableOk(c: Config, es: seq<Event>, w: nat)
    requires ValidConfig(c) && Feasible(c, Init(c), es) && w < |Exec(c, Init(c), es).workers|
    ensures Sound(Exec(c, Init(c), es)) && StageOk(c, Exec(c, Init(c), es).workers[w])
  {
    hide Exec, Feasible, StageOk, Sound, Counted, CallsTraced, Probed;
    InitInv(c);
    RunInv(c, Init(c), es);
  }

  /** Sleeps are slept out. Whatever the others do meanwhile, the next turn of a worker whose call was
      answered is the end of its pause, no sooner than that is over; or another try at the gate, no
      sooner than its back-off is over; or else the next entry of the queue. */
  lemma SleepsAreServed(c: Config, es: seq<Event>, e: Event, mid: seq<Event>, x: Event)
    requires ValidConfig(c) && Feasible(c, Init(c), es) && Enabled(c, Exec(c, Init(c), es), e) && e.Answer?
    requires NextTurn(c, Step(c, Exec(c, Init(c), es), e), mid, x, e.w)
    ensures var s := Exec(c, Init(c), es);
      if TellsReset(e.reply) then x.Resume? && x.at >= e.at + e.pause
      else if |s.workers[e.w].task.trace| + 1 < TriesFor(e.reply) && CanRetry(s)
      then x.Pass? && x.at >= e.at + e.delay
      else x.Get?
  {
    hide Exec, Feasible, Step, StageOk, TriesFor, CanRetry, NextTurn, DelayOk;
    var s := Exec(c, Init(c), es);
    ReachableOk(c, es, e.w);
    PausesExactly(c, s, e);
    if !TellsReset(e.reply) { RetriesExactly(c, s, e); }
    NextFits(c, Step(c, s, e), mid, x, e.w);
  }

  /** And the next turn after a pause is another try, no sooner than the back-off is over, or else
      the next entry of the queue. */
  lemma BackoffAfterPause(c: Config, es: seq<Event>, e: Event, mid: seq<Event>, x: Event)
    requires ValidConfig(c) && Feasible(c, Init(c), es) && Enabled(c, Exec(c, Init(c), es), e) && e.Resume?
    requires NextTurn(c, Step(c, Exec(c, Init(c), es), e), mid, x, e.w)
    ensures var s := Exec(c, Init(c), es);
      if |s.workers[e.w].task.trace| < 8 && CanRetry(s) then x.Pass? && x.at >= e.at + e.delay else x.Get?
  {
    hide Exec, Feasible, Step, StageOk, CanRetry, NextTurn, DelayOk;
    var s := Exec(c, Init(c), es);
    ReachableOk(c, es, e.w);
    ResumesExactly(c, s, e);
    NextFits(c, Step(c, s, e), mid, x, e.w);
  }

  // ---------------------------------------------------------------- the gate

  /** A breaker that will not let a request through: open and still cooling down, or waiting for
      a probe that is neither back nor given up. */
  predicate Refuses(c: Config, b: Breaker, now: real) {
    || (b.state == Open && now - b.openedAt < c.breaker.cooldown)
    || (b.state == HalfOpen && b.probing && now <= b.openedAt + c.breaker.cooldown + c.breaker.probeTimeout)
  }

  /** The gate of a job that goes on: a refused worker polls again a quarter of a second later, and
      one let through counts a try and waits for its token. Neither writes a row. */
  lemma GateGoesOn(c: Config, s: State, e: Event)
    requires e.Pass? && Enabled(c, s, e) && !s.flags.cancelled && !s.flags.aborted
    ensures var s', task := Step(c, s, e), s.workers[e.w].task;
      && s'.books == s.books && s'.counts == s.counts && s'.budget == s.budget
      && s'.workers == s.workers[e.w :=
           if Refuses(c, s.control.breaker, e.at) then Gate(task, e.at + 0.25)
           else Acquire(task.(attempt := task.attempt + 1), e.at)]
  {
  }

  /** The classes of the fatal answers of a run, in order. */
  function FatalKinds(es: seq<Event>): seq<FailureClass> {
    if es == [] then []
    else if Last(es).Answer? && Last(es).reply.Response? && Last(es).reply.status in {401, 403} then
      FatalKinds(Front(es)) + [FatalAuth]
    else if Last(es).Answer? && Last(es).reply.Response? && Last(es).reply.status == 402 then
      FatalKinds(Front(es)) + [FatalBilling]
    else FatalKinds(Front(es))
  }

  lemma StepLabels(c: Config, s: State, e: Event)
    requires Enabled(c, s, e)
    ensures var kind := if e.Answer? then Classify(e.reply).kind else Success;
      Step(c, s, e).flags.abortClass == if IsFatal(kind) then s.flags.abortClass + [kind] else s.flags.abortClass
  {
    hide Bump, BudgetLimit, Allow, TryTake, Record, SetRate, SpendGuardTrips, DecreaseDue, Classify, DelayOk, Tried;
  }

  lemma {:induction false} LabelsMatch(c: Config, es: seq<Event>)
    requires Feasible(c, Init(c), es)
    ensures Exec(c, Init(c), es).flags.abortClass == FatalKinds(es)
  {
    if es == [] {
    } else {
      hide Step;
      LabelsMatch(c, Front(es));
      StepLabels(c, Exec(c, Init(c), Front(es)), Last(es));
    }
  }

  /** The gate of a stopped job: the item gets its error row with the calls it has made, labelled
      cancelled if the job is, else with the class of the first fatal answer of the run, and with
      fatal_auth if there was none and the spend guard has stopped it. */
  lemma GateStops(c: Config, es: seq<Event>, e: Event)
    requires Feasible(c, Init(c), es) && Enabled(c, Exec(c, Init(c), es), e) && e.Pass?
    requires Exec(c, Init(c), es).flags.cancelled || Exec(c, Init(c), es).flags.aborted
    ensures var s := Exec(c, Init(c), es);
      var kind := if s.flags.cancelled then Cancelled
                  else if FatalKinds(es) != [] then FatalKinds(es)[0] else FatalAuth;
      var task := s.workers[e.w].task;
      && Step(c, s, e).books.log == s.books.log + [Failed(task, kind, Max(1, task.attempt), None)]
      && Step(c, s, e).workers == s.workers[e.w := Idle] && Step(c, s, e).control == s.control
  {
    hide Exec, Feasible, FatalKinds, Bump, Allow;
    LabelsMatch(c, es);
  }

  // ---------------------------------------------------------------- the token

  /** A pass of the acquire loop: with a whole token there, it is taken and the call starts now;
      else the worker tries again when the wait named by the bucket is over. */
  lemma TokenLaw(c: Config, s: State, e: Event)
    requires e.Token? && Enabled(c, s, e)
    ensures var s', b, task := Step(c, s, e), Refill(s.control.bucket, e.at), s.workers[e.w].task;
      && s'.books == s.books && s'.budget == s.budget
      && if b.tokens >= 1.0
         then && s'.workers == s.workers[e.w := Calling(task)] && s'.starts == s.starts + [e.at]
              && s'.counts == s.counts.(inFlight := s.counts.inFlight + 1)
              && s'.control.bucket == b.(tokens := b.tokens - 1.0)
         else && s'.starts == s.starts && s'.counts == s.counts && s'.control.bucket == b
              && s'.workers[e.w].Acquire? && s'.workers[e.w].task == task && s'.workers[e.w].wake >= e.at + 0.001
  {
    hide Refill;
  }

  // ---------------------------------------------------------------- the HTTP status of a row

  /** A pausing worker carries the status of the 429 it is sitting out. */
  predicate PausesWith429(s: State) {
    forall w :: 0 <= w < |s.workers| && s.workers[w].Pausing? ==> s.workers[w].status == Some(429)
  }

  /** What a step of worker w writes: nothing, or one row, of this status if it is an error row. */
  predicate WritesStatus(s: State, s': State, status: Option<int>) {
    || s'.books.log == s.books.log
    || (&& s'.books.log != [] && Front(s'.books.log) == s.books.log
        && (Last(s'.books.log).Failed? ==> Last(s'.books.log).status == status))
  }

  lemma OneRow(s: State, s': State, row: OutRow, status: Option<int>)
    requires s'.books.log == s.books.log + [row] && (row.Failed? ==> row.status == status)
    ensures WritesStatus(s, s', status)
  {
    assert Front(s'.books.log) == s.books.log && Last(s'.books.log) == row;
  }

  lemma NothingWritten(s: State, s': State, status: Option<int>)
    requires s'.books.log == s.books.log
    ensures WritesStatus(s, s', status)
  {
  }

  lemma DecideStatus(s: State, w: nat, task: Task, v: Verdict, status: Option<int>, delay: real)
    requires w < |s.workers|
    ensures WritesStatus(s, Decide(s, w, task, v, status, delay), status)
  {
    hide Bump, BudgetLimit, WritesStatus;
    var s' := Decide(s, w, task, v, status, delay);
    if s'.workers[w].Gate? {
      NothingWritten(s, s', status);
    } else {
      OneRow(s, s', s'.books.log[|s.books.log|], status);
    }
  }

  lemma StatusAlike(a: State, b: State, s': State, status: Option<int>)
    requires a.books == b.books && WritesStatus(a, s', status)
    ensures WritesStatus(b, s', status)
  {
  }

  lemma AnswerStatus(c: Config, s: State, w: nat, reply: Reply, pause: real, delay: real)
    requires w < |s.workers| && s.workers[w].Calling?
    ensures WritesStatus(s, OnAnswer(c, s, w, reply, pause, delay), StatusOf(reply))
  {
    hide Classify, Bump, Decide, Tried, OnAnswer, BudgetLimit, WritesStatus, Returned, SlowDown, StatusOf;
    var v, status, task := Classify(reply), StatusOf(reply), Tried(s.workers[w], reply);
    var s1, s' := Returned(c, s, v.kind), OnAnswer(c, s, w, reply, pause, delay);
    AnswerCases(c, s, w, reply, pause, delay);
    SideEffects(c, s, v.kind);
    if s'.books.log == s.books.log {
      NothingWritten(s, s', status);
    } else if s' == Decide(s1, w, task, v, status, delay) {
      DecideStatus(s1, w, task, v, status, delay);
      StatusAlike(s1, s, s', status);
    } else if s' == Decide(SlowDown(c, s1), w, task, v, status, delay) {
      DecideStatus(SlowDown(c, s1), w, task, v, status, delay);
      StatusAlike(SlowDown(c, s1), s, s', status);
    } else {
      OneRow(s, s', s'.books.log[|s.books.log|], status);
    }
  }

  /** The status that a step's row bears: that of the answer, if it is one and had a response; 429
      at the end of a pause; none where no call has been made in the step. */
  function StatusDue(e: Event): Option<int> {
    match e
    case Answer(_, _, reply, _, _) => if reply.Response? then Some(reply.status) else None
    case Resume(_, _, _) => Some(429)
    case _ => None
  }

  lemma StepStatus(c: Config, s: State, e: Event)
    requires PausesWith429(s) && Enabled(c, s, e)
    ensures WritesStatus(s, Step(c, s, e), StatusDue(e))
  {
    hide Bump, Decide, OnAnswer, Allow, TryTake, WritesStatus, DelayOk;
    var s0, s' := s.(now := e.at), Step(c, s, e);
    match e {
      case Answer(w, _, reply, pause, delay) => AnswerStatus(c, s0, w, reply, pause, delay);
      case Resume(w, _, delay) =>
        DecideStatus(s0, w, s.workers[w].task, s.workers[w].verdict, s.workers[w].status, delay);
      case Get(_, _) =>
        if s'.books.log == s.books.log {
          NothingWritten(s0, s', None);
        } else {
          OneRow(s0, s', s'.books.log[|s.books.log|], None);
        }
      case Pass(_, _) =>
        if s'.books.log == s.books.log {
          NothingWritten(s0, s', None);
        } else {
          OneRow(s0, s', s'.books.log[|s.books.log|], None);
        }
      case _ => NothingWritten(s0, s', None);
    }
    StatusAlike(s0, s, s', StatusDue(e));
  }

  lemma AnswerPauses(c: Config, s: State, w: nat, reply: Reply, pause: real, delay: real)
    requires w < |s.workers| && s.workers[w].Calling? && PausesWith429(s)
    ensures PausesWith429(OnAnswer(c, s, w, reply, pause, delay))
  {
    hide Bump, Record, SetRate, SpendGuardTrips, DecreaseDue, Classify, BudgetLimit, Tried;
  }

  lemma StepPauses(c: Config, s: State, e: Event)
    requires PausesWith429(s) && Enabled(c, s, e)
    ensures PausesWith429(Step(c, s, e))
  {
    hide Bump, Allow, TryTake, Record, SetRate, SpendGuardTrips, DecreaseDue, Classify, DelayOk, BudgetLimit;
    if e.Answer? { AnswerPauses(c, s.(now := e.at), e.w, e.reply, e.pause, e.delay); }
    hide OnAnswer;
  }

  lemma NobodyPauses(c: Config)
    ensures PausesWith429(Init(c))
  {
    AllIdle(Init(c).workers);
  }

  lemma {:induction false} NeverPausesOtherwise(c: Config, es: seq<Event>)
    requires Feasible(c, Init(c), es)
    ensures PausesWith429(Exec(c, Init(c), es))
  {
    if es == [] {
      NobodyPauses(c);
    } else {
      hide Step, PausesWith429;
      NeverPausesOtherwise(c, Front(es));
      StepPauses(c, Exec(c, Init(c), Front(es)), Last(es));
    }
  }

  /** Each error row bears the HTTP status of the event of the run that wrote it. */
  lemma {:induction false} RowsBearTheirStatus(c: Config, es: seq<Event>, i: nat) returns (k: nat)
    requires Feasible(c, Init(c), es)
    requires i < |Exec(c, Init(c), es).books.log| && Exec(c, Init(c), es).books.log[i].Failed?
    ensures k < |es| && Feasible(c, Init(c), es[..k]) && |Exec(c, Init(c), es[..k]).books.log| == i
    ensures Exec(c, Init(c), es).books.log[i].status == StatusDue(es[k])
    decreases |es|
  {
    hide Step, PausesWith429, StatusDue;
    k := 0;
    if es == [] {
    } else {
      var f := Front(es);
      var p := Exec(c, Init(c), f);
      NeverPausesOtherwise(c, f);
      StepStatus(c, p, Last(es));
      if i < |p.books.log| {
        assert p.books.log[i] == Exec(c, Init(c), es).books.log[i];
        k := RowsBearTheirStatus(c, f, i);
        assert f[..k] == es[..k];
      } else {
        k := |f|;
        assert es[..k] == f;
      }
    }
  }
}
