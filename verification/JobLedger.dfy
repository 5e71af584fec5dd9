// What every step of a job keeps: counters, exactly-once, budget, backpressure, the ledger.

module JobLedger {
  import opened Models
  import opened Retry
  import opened RateLimit
  import opened Job

  // ---------------------------------------------------------------- counting the workers

  datatype Tally = Tally(idle: int, gate: int, acquire: int, calling: int, pausing: int, exited: int)

  function One(st: Stage): Tally {
    match st
    case Idle => Tally(1, 0, 0, 0, 0, 0)
    case Gate(_, _) => Tally(0, 1, 0, 0, 0, 0)
    case Acquire(_, _) => Tally(0, 0, 1, 0, 0, 0)
    case Calling(_) => Tally(0, 0, 0, 1, 0, 0)
    case Pausing(_, _, _, _) => Tally(0, 0, 0, 0, 1, 0)
    case Exited => Tally(0, 0, 0, 0, 0, 1)
  }

  function Plus(a: Tally, b: Tally): Tally {
    Tally(a.idle + b.idle, a.gate + b.gate, a.acquire + b.acquire, a.calling + b.calling,
          a.pausing + b.pausing, a.exited + b.exited)
  }

  function TallyOf(ws: seq<Stage>): Tally {
    if ws == [] then Tally(0, 0, 0, 0, 0, 0) else Plus(One(ws[0]), TallyOf(ws[1..]))
  }

  function Holding(t: Tally): int { t.gate + t.acquire + t.calling + t.pausing }

  lemma {:induction false} TallyUpdate(ws: seq<Stage>, w: nat, st: Stage)
    requires w < |ws|
    ensures Plus(TallyOf(ws[w := st]), One(ws[w])) == Plus(TallyOf(ws), One(st))
  {
    hide One;
    if w > 0 {
      assert ws[w := st][1..] == ws[1..][w - 1 := st];
      TallyUpdate(ws[1..], w - 1, st);
    } else {
      assert ws[w := st][1..] == ws[1..];
    }
  }

  predicate NonNegative(t: Tally) {
    t.idle >= 0 && t.gate >= 0 && t.acquire >= 0 && t.calling >= 0 && t.pausing >= 0 && t.exited >= 0
  }

  function Total(t: Tally): int { t.idle + Holding(t) + t.exited }

  lemma OneBounds(st: Stage)
    ensures NonNegative(One(st)) && Total(One(st)) == 1
  {
  }

  lemma OneExited(st: Stage)
    ensures One(st).exited == 1 <==> st.Exited?
  {
  }

  lemma TallyNil()
    ensures TallyOf([]) == Tally(0, 0, 0, 0, 0, 0)
  {
  }

  lemma TallyHead(ws: seq<Stage>)
    requires ws != []
    ensures TallyOf(ws) == Plus(One(ws[0]), TallyOf(ws[1..]))
  {
    hide One;
  }

  lemma {:induction false} TallyBounds(ws: seq<Stage>)
    ensures NonNegative(TallyOf(ws)) && Total(TallyOf(ws)) == |ws|
  {
    hide One, TallyOf;
    if ws == [] {
      TallyNil();
    } else {
      TallyHead(ws);
      TallyBounds(ws[1..]);
      OneBounds(ws[0]);
    }
  }

  lemma {:induction false} TallyPresent(ws: seq<Stage>, w: nat)
    requires w < |ws|
    ensures var t, o := TallyOf(ws), One(ws[w]);
            && o.idle <= t.idle && o.gate <= t.gate && o.acquire <= t.acquire
            && o.calling <= t.calling && o.pausing <= t.pausing && o.exited <= t.exited
  {
    hide One, TallyOf;
    TallyHead(ws);
    TallyBounds(ws[1..]);
    OneBounds(ws[0]);
    if w == 0 {
    } else {
      TallyPresent(ws[1..], w - 1);
    }
  }

  // ---------------------------------------------------------------- counting the queue

  function Items(q: seq<Entry>): nat {
    if q == [] then 0 else (if q[0].Item? then 1 else 0) + Items(q[1..])
  }

  function Shutdowns(q: seq<Entry>): nat {
    if q == [] then 0 else (if q[0].Shutdown? then 1 else 0) + Shutdowns(q[1..])
  }

  lemma {:induction false} QueueAppend(q: seq<Entry>, x: Entry)
    ensures Items(q + [x]) == Items(q) + (if x.Item? then 1 else 0)
    ensures Shutdowns(q + [x]) == Shutdowns(q) + (if x.Shutdown? then 1 else 0)
  {
    if q == [] {
      assert (q + [x])[1..] == [];
    } else {
      assert (q + [x])[1..] == q[1..] + [x];
      QueueAppend(q[1..], x);
    }
  }

  lemma {:induction false} QueueBounds(q: seq<Entry>)
    ensures Items(q) + Shutdowns(q) <= |q|
    ensures Shutdowns(q) == 0 <==> forall x :: x in q ==> !x.Shutdown?
  {
    if q == [] {
    } else {
      QueueBounds(q[1..]);
    }
  }

  lemma QueueHead(q: seq<Entry>)
    requires q != []
    ensures Items(q) == Items(q[1..]) + (if q[0].Item? then 1 else 0)
    ensures Shutdowns(q) == Shutdowns(q[1..]) + (if q[0].Shutdown? then 1 else 0)
  {
  }

  // ---------------------------------------------------------------- one step of one worker

  /** An error row is one a result file may hold: a terminal class that fits the job's flags. */
  predicate RowFits(flags: Flags, row: OutRow) {
    row.Failed? ==>
      && IsTerminalFailure(row.kind)
      && (row.kind == Cancelled ==> flags.cancelled)
      && (IsFatal(row.kind) ==> flags.aborted)
  }

  /** One row for one item, with every counter brought up to date. */
  predicate RowAdded(s: State, s': State, task: Task) {
    && |s'.books.log| == |s.books.log| + 1
    && var row := s'.books.log[|s.books.log|];
    && s'.books.log == s.books.log + [row]
    && row.task == task && RowFits(s'.flags, row)
    && s'.counts.ingested == s.counts.ingested && s'.counts.pending == s.counts.pending - 1
    && match row
       case Done(_, i, o) =>
         && s'.counts.succeeded == s.counts.succeeded + 1 && s'.counts.failed == s.counts.failed
         && s'.books == Books(s.books.inputTokens + i, s.books.outputTokens + o, s.books.errors, s'.books.log)
       case Failed(_, kind, _, _) =>
         && s'.counts.failed == s.counts.failed + 1 && s'.counts.succeeded == s.counts.succeeded
         && s'.books == s.books.(errors := Bump(s.books.errors, kind), log := s'.books.log)
  }

  predicate NoRow(s: State, s': State) {
    s'.books == s.books && s'.counts == s.counts.(inFlight := s'.counts.inFlight)
  }

  predicate FlagsGrow(a: Flags, b: Flags) {
    && b.cancelled == a.cancelled && (a.aborted ==> b.aborted)
    && (b.abortClass == a.abortClass
        || (b.aborted && |b.abortClass| == |a.abortClass| + 1
            && b.abortClass == a.abortClass + [b.abortClass[|a.abortClass|]]
            && IsFatal(b.abortClass[|a.abortClass|])))
  }

  /** What worker w took up or was holding before the step, whatever became of it. */
  function Subject(s: State, w: nat): Task
    requires w < |s.workers|
  {
    var st := s.workers[w];
    if st.Exited? then NewTask(0)
    else if st.Idle? then (if s.queue != [] && !s.queue[0].Shutdown? then NewTask(s.queue[0].idx) else NewTask(0))
    else st.task
  }

  function Taking(st: Stage): nat { if st.Idle? then 1 else 0 }
  function Flying(st: Stage): nat { if st.Calling? then 1 else 0 }
  function Retrying(a: Stage, b: Stage): nat {
    if (a.Calling? || a.Pausing?) && b.Gate? then 1 else 0
  }

  /** Everything about a worker's step that the bookkeeping invariants depend on. */
  ghost predicate Worked(s: State, s': State, w: nat) {
    && w < |s.workers| == |s'.workers| && s'.workers == s.workers[w := s'.workers[w]]
    && s'.now == s.now && s'.next == s.next && s'.ingest == s.ingest && s'.budget.total == s.budget.total
    && FlagsGrow(s.flags, s'.flags)
    && var a, b := s.workers[w], s'.workers[w];
    && Taking(a) <= |s.queue| && s'.queue == s.queue[Taking(a)..]
    && s'.counts.inFlight == s.counts.inFlight - Flying(a) + Flying(b)
    && s'.starts == (if b.Calling? then s.starts + [s.now] else s.starts)
    && s'.budget.used == s.budget.used + Retrying(a, b)
    && s'.control.controller.retries == s.control.controller.retries + Retrying(a, b)
    && (Retrying(a, b) == 1 ==> s.budget.used < BudgetLimit(s.budget.total))
    && (b.Idle? || b.Exited? || b.task.idx == Subject(s, w).idx)
    && match b
       case Idle =>
         && !a.Exited? && (a.Idle? ==> s.queue[0].Broken?)
         && exists task: Task :: task.idx == Subject(s, w).idx && RowAdded(s, s', task)
       case Exited => a.Idle? && s.queue[0].Shutdown? && NoRow(s, s')
       case Gate(_, _) => !a.Exited? && !a.Acquire? && (a.Idle? ==> s.queue[0].Item?) && NoRow(s, s')
       case Acquire(_, _) => (a.Gate? || a.Acquire?) && NoRow(s, s')
       case Calling(_) => a.Acquire? && NoRow(s, s')
       case Pausing(_, v, _, _) => a.Calling? && v == Verdict(Throttled, 8) && NoRow(s, s')
  }

  lemma EmitErrorWorks(s: State, w: nat, task: Task, kind: FailureClass, attempt: nat, status: Option<int>)
    requires w < |s.workers| && RowFits(s.flags, Failed(task, kind, attempt, status))
    ensures RowAdded(s, EmitError(s, w, task, kind, attempt, status), task)
  {
  }

  lemma GetWorks(s: State, w: nat)
    requires w < |s.workers| && s.workers[w].Idle? && s.queue != []
    ensures Worked(s, OnGet(s, w), w)
  {
    hide Bump, BudgetLimit;
    if s.queue[0].Broken? {
      var task := NewTask(s.queue[0].idx);
      EmitErrorWorks(s.(queue := s.queue[1..]), w, task, InvalidInput, 1, None);
      assert RowAdded(s, OnGet(s, w), task);
    }
  }

  /** The label of an aborted job is a fatal class. */
  predicate FlagsOk(flags: Flags) {
    && (forall i :: 0 <= i < |flags.abortClass| ==> IsFatal(flags.abortClass[i]))
    && (flags.abortClass != [] ==> flags.aborted)
  }

  lemma PassWorks(c: Config, s: State, w: nat)
    requires w < |s.workers| && s.workers[w].Gate? && FlagsOk(s.flags)
    ensures Worked(s, OnPass(c, s, w), w)
  {
    hide Bump, BudgetLimit, Allow;
    if s.flags.cancelled || s.flags.aborted { assert RowAdded(s, OnPass(c, s, w), s.workers[w].task); }
  }

  lemma TokenWorks(s: State, w: nat)
    requires w < |s.workers| && s.workers[w].Acquire?
    ensures Worked(s, OnToken(s, w), w)
  {
    hide TryTake, BudgetLimit;
  }

  lemma DecideWorks(s: State, w: nat, task: Task, v: Verdict, status: Option<int>, delay: real)
    requires w < |s.workers| && v.kind != Success && !IsFatal(v.kind) && v.kind != Cancelled
    ensures var s' := Decide(s, w, task, v, status, delay);
      && s'.workers == s.workers[w := s'.workers[w]]
      && s' == s.(workers := s'.workers, books := s'.books, counts := s'.counts,
                  budget := s'.budget, control := s'.control)
      && s'.control.bucket == s.control.bucket && s'.control.breaker == s.control.breaker
      && s'.budget.total == s.budget.total && s'.counts.inFlight == s.counts.inFlight
      && if s'.workers[w].Idle?
         then s'.budget == s.budget && s'.control == s.control && RowAdded(s, s', task)
         else s'.workers[w].Gate? && NoRow(s, s') && s'.budget.used == s.budget.used + 1
              && s'.control.controller.retries == s.control.controller.retries + 1
              && s.budget.used < BudgetLimit(s.budget.total)
              && s'.workers[w] == Gate(task.(slept := task.slept + delay), s.now + delay) && task.attempt < v.cap
  {
    hide Bump, BudgetLimit;
  }

  /** A pausing worker always carries the verdict of the 429 it is sitting out. */
  ghost predicate PausesOnThrottle(s: State) {
    forall w :: 0 <= w < |s.workers| && s.workers[w].Pausing? ==> s.workers[w].verdict == Verdict(Throttled, 8)
  }

  lemma ResumeWorks(s: State, w: nat, delay: real)
    requires w < |s.workers| && s.workers[w].Pausing? && s.workers[w].verdict == Verdict(Throttled, 8)
    ensures Worked(s, OnResume(s, w, delay), w)
  {
    hide Decide, BudgetLimit;
    DecideWorks(s, w, s.workers[w].task, s.workers[w].verdict, s.workers[w].status, delay);
    hide RowAdded;
  }

  lemma AnswerWorks(c: Config, s: State, w: nat, reply: Reply, pause: real, delay: real)
    requires w < |s.workers| && s.workers[w].Calling?
    ensures Worked(s, OnAnswer(c, s, w, reply, pause, delay), w)
  {
    hide Bump, BudgetLimit, Record, SetRate, SpendGuardTrips, DecreaseDue, Decide;
    var v, status, task := Classify(reply), StatusOf(reply), Tried(s.workers[w], reply);
    hide Classify;
    var s1 := Returned(c, s, v.kind);
    if v.kind == Success {
      assert RowAdded(s, Succeed(c, s1, w, task, reply), task);
    } else if IsFatal(v.kind) {
      assert RowAdded(s, Fatal(s1, w, task, v.kind, status), task);
    } else {
      var s2 := if v.kind == Throttled then SlowDown(c, s1) else s1;
      DecideWorks(s2, w, task, v, status, delay);
      var s3 := Decide(s2, w, task, v, status, delay);
      assert RowAdded(s2, s3, task) ==> RowAdded(s, s3, task);
      assert NoRow(s2, s3) ==> NoRow(s, s3);
      hide RowAdded, NoRow;
    }
  }

  // ---------------------------------------------------------------- one step of the job

  predicate ByWorker(e: Event) { e.Get? || e.Pass? || e.Token? || e.Answer? || e.Resume? }

  ghost predicate Sound(s: State) {
    FlagsOk(s.flags) && PausesOnThrottle(s)
  }

  lemma ActWorks(c: Config, s: State, e: Event)
    requires Sound(s) && e.at == s.now && Enabled(c, s, e) && ByWorker(e)
    ensures Worked(s, Act(c, s, e), e.w)
  {
    hide OnGet, OnPass, OnToken, OnAnswer, OnResume, Worked, DelayOk;
    match e
    case Get(w, _) => GetWorks(s, w);
    case Pass(w, _) => PassWorks(c, s, w);
    case Token(w, _) => TokenWorks(s, w);
    case Answer(w, _, reply, pause, delay) => AnswerWorks(c, s, w, reply, pause, delay);
    case Resume(w, _, delay) => ResumeWorks(s, w, delay);
  }

  /** What a step of ingest, or a cancel, changes. */
  ghost predicate Fed(c: Config, s: State, s': State) {
    && s'.now == s.now && s'.workers == s.workers && s'.books == s.books && s'.control == s.control
    && s'.starts == s.starts && s'.budget.used == s.budget.used && s'.prober == s.prober
    && s'.flags.aborted == s.flags.aborted && s'.flags.abortClass == s.flags.abortClass
    && (s.flags.cancelled ==> s'.flags.cancelled)
    && if s'.counts != s.counts
       then && s.ingest.Reading? && !s.flags.cancelled && !s.flags.aborted && s.next < |c.rows|
            && s'.next == s.next + 1 && s'.queue == s.queue
            && s'.counts == s.counts.(ingested := s.counts.ingested + 1, pending := s.counts.pending + 1)
            && s'.budget.total == s.counts.ingested + 1
            && s'.ingest.Putting? && !s'.ingest.entry.Shutdown? && s'.ingest.entry.idx == s.counts.ingested
       else && s'.budget.total == s.budget.total
            && s.next <= s'.next && (s.next <= |c.rows| ==> s'.next <= |c.rows|)
            && match (s.ingest, s'.ingest)
               case (Reading, Reading) => s'.queue == s.queue && s'.next == s.next
               case (Reading, Closing(k)) => s'.queue == s.queue && k == 0
               case (Putting(x), Putting(y)) => s'.queue == s.queue && x == y && s'.next == s.next
               case (Putting(x), Reading) => s'.queue == s.queue + [x] && |s.queue| < Slots(c) && s'.next == s.next
               case (Putting(x), Closing(k)) =>
                 s'.queue == s.queue + [x] && |s.queue| < Slots(c) && k == 0 && s'.next == s.next
               case (Closing(k), Closing(m)) =>
                 s'.next == s.next && if m == k then s'.queue == s.queue
                 else m == k + 1 <= c.concurrency && s'.queue == s.queue + [Shutdown] && |s.queue| < Slots(c)
               case (Closing(k), Finished) =>
                 s'.next == s.next && s'.queue == s.queue && k == c.concurrency
                 && forall w :: 0 <= w < |s.workers| ==> s.workers[w] == Exited
               case (Finished, Finished) => s'.queue == s.queue && s'.next == s.next
               case _ => false
  }

  lemma ActFeeds(c: Config, s: State, e: Event)
    requires e.at == s.now && Enabled(c, s, e) && !ByWorker(e)
    ensures Fed(c, s, Act(c, s, e))
  {
    hide OnGet, OnPass, OnToken, OnAnswer, OnResume;
  }

  lemma WorkedSound(s: State, s': State, w: nat)
    requires Sound(s) && Worked(s, s', w)
    ensures Sound(s')
  {
    hide RowAdded, NoRow, Subject, BudgetLimit;
  }

  lemma FedSound(c: Config, s: State, s': State)
    requires Sound(s) && Fed(c, s, s')
    ensures Sound(s')
  {
  }

  lemma SoundKept(c: Config, s: State, e: Event)
    requires Sound(s) && Enabled(c, s, e)
    ensures Sound(Step(c, s, e))
  {
    var s0 := s.(now := e.at);
    assert Sound(s0) && Enabled(c, s0, e);
    hide Act, Worked, Fed, Sound;
    if ByWorker(e) {
      ActWorks(c, s0, e);
      WorkedSound(s0, Step(c, s, e), e.w);
    } else {
      ActFeeds(c, s0, e);
      FedSound(c, s0, Step(c, s, e));
    }
  }

  // ---------------------------------------------------------------- counters, budget, backpressure

  function Putters(s: State): int { if s.ingest.Putting? then 1 else 0 }
  function PromptPutters(s: State): int { if s.ingest.Putting? && s.ingest.entry.Item? then 1 else 0 }

  /** Calls that the ingested prompts and the issued retries still entitle the job to make. */
  function Credit(s: State): int {
    Items(s.queue) + PromptPutters(s) + TallyOf(s.workers).gate + TallyOf(s.workers).acquire
  }

  ghost predicate Counted(c: Config, s: State) {
    && |s.workers| == c.concurrency && |s.queue| <= Slots(c)
    && (s.ingest.Putting? ==> !s.ingest.entry.Shutdown?)
    && s.next <= |c.rows| && s.counts.ingested <= s.next
    // conservation
    && s.counts.ingested == s.counts.succeeded + s.counts.failed + s.counts.pending
    && s.counts.pending == |s.queue| - Shutdowns(s.queue) + Putters(s) + Holding(TallyOf(s.workers))
    && s.counts.inFlight == TallyOf(s.workers).calling
    // bounded work
    && s.budget.total == Max(1, s.counts.ingested)
    && s.budget.used == s.control.controller.retries <= BudgetLimit(s.budget.total)
    && |s.starts| + Credit(s) <= s.counts.ingested + s.budget.used
  }

  lemma {:induction false} AllIdle(ws: seq<Stage>)
    requires forall w :: 0 <= w < |ws| ==> ws[w] == Idle
    ensures TallyOf(ws) == Tally(|ws|, 0, 0, 0, 0, 0)
  {
    if ws == [] {
    } else {
      AllIdle(ws[1..]);
    }
  }

  lemma InitCounted(c: Config)
    ensures Counted(c, Init(c))
  {
    hide IdleWorkers, TallyOf, Items, Shutdowns;
    var s := Init(c);
    AllIdle(s.workers);
    QueueBounds(s.queue);
  }

  lemma WorkedCounted(c: Config, s: State, s': State, w: nat)
    requires Counted(c, s) && Worked(s, s', w)
    ensures Counted(c, s')
  {
    hide TallyOf, Items, Shutdowns, BudgetLimit, Bump, RowFits;
    TallyUpdate(s.workers, w, s'.workers[w]);
    if s.workers[w].Idle? { QueueHead(s.queue); }
    assert s.queue[0..] == s.queue;
  }

  lemma FedCounted(c: Config, s: State, s': State)
    requires Counted(c, s) && Fed(c, s, s')
    ensures Counted(c, s')
  {
    hide TallyOf, Items, Shutdowns;
    if s.ingest.Putting? { QueueAppend(s.queue, s.ingest.entry); }
    QueueAppend(s.queue, Shutdown);
    BudgetLimitGrows(s.budget.total, s'.budget.total);
    hide BudgetLimit;
  }

  lemma CountedKept(c: Config, s: State, e: Event)
    requires Counted(c, s) && Sound(s) && Enabled(c, s, e)
    ensures Counted(c, Step(c, s, e))
  {
    var s0 := s.(now := e.at);
    assert Counted(c, s0) && Sound(s0) && Enabled(c, s0, e);
    hide Act, Counted, Worked, Fed;
    if ByWorker(e) {
      ActWorks(c, s0, e);
      WorkedCounted(c, s0, Step(c, s, e), e.w);
    } else {
      ActFeeds(c, s0, e);
      FedCounted(c, s0, Step(c, s, e));
    }
  }
}
