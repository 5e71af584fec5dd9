// How fast an abort or a cancel takes hold of a job, and what becomes of its items.

module JobStopping {
  import opened Models
  import opened Retry
  import opened RateLimit
  import opened Job
  import opened JobLedger
  import opened JobCustody
  import opened JobRuns

  // ---------------------------------------------------------------- no more calls

  predicate Stopped(s: State) { s.flags.aborted || s.flags.cancelled }

  /** The calls that may still start once the job is stopped: one per worker past the gate. */
  function PastGate(s: State): int { TallyOf(s.workers).acquire }

  /** Nobody gets past the gate of a stopped job; a worker past it is still on the same item. */
  ghost predicate NobodyEnters(s: State, s': State) {
    && |s'.workers| == |s.workers|
    && forall w :: 0 <= w < |s.workers| && s'.workers[w].Acquire? ==>
         s.workers[w].Acquire? && s'.workers[w].task == s.workers[w].task
  }

  lemma WorkedStopped(s: State, s': State, w: nat)
    requires Worked(s, s', w) && Stopped(s)
    requires s'.workers[w].Acquire? ==> s.workers[w].Acquire? && s'.workers[w].task == s.workers[w].task
    ensures Stopped(s') && s'.counts.ingested == s.counts.ingested
    ensures |s'.starts| + PastGate(s') <= |s.starts| + PastGate(s)
    ensures NobodyEnters(s, s')
  {
    hide TallyOf, BudgetLimit, Bump, RowFits;
    TallyUpdate(s.workers, w, s'.workers[w]);
  }

  lemma FedStopped(c: Config, s: State, s': State)
    requires Fed(c, s, s') && Stopped(s)
    ensures Stopped(s') && s'.counts.ingested == s.counts.ingested && s'.starts == s.starts && s'.workers == s.workers
  {
  }

  lemma DecideNeverEnters(s: State, c: Config, e: Event)
    requires e.Answer? && e.at == s.now && Enabled(c, s, e)
    ensures !Act(c, s, e).workers[e.w].Acquire?
  {
    hide Bump, BudgetLimit, Record, SetRate, SpendGuardTrips, DecreaseDue, Classify, DelayOk;
  }

  lemma StoppedGate(c: Config, s: State, e: Event)
    requires Stopped(s) && e.at == s.now && Enabled(c, s, e) && ByWorker(e)
    ensures var s' := Act(c, s, e);
      e.w < |s'.workers| && (s'.workers[e.w].Acquire? ==>
        s.workers[e.w].Acquire? && s'.workers[e.w].task == s.workers[e.w].task)
  {
    hide Bump, BudgetLimit, Allow, TryTake, Record, SetRate, SpendGuardTrips, DecreaseDue, Classify, DelayOk;
    if e.Answer? {
      DecideNeverEnters(s, c, e);
      hide OnAnswer;
    } else {
      hide OnAnswer;
    }
  }

  lemma StoppedStep(c: Config, s: State, e: Event)
    requires Sound(s) && Stopped(s) && Enabled(c, s, e)
    ensures var s' := Step(c, s, e);
      && Stopped(s') && s'.counts.ingested == s.counts.ingested
      && |s'.starts| + PastGate(s') <= |s.starts| + PastGate(s)
      && NobodyEnters(s, s')
  {
    var s0, s' := s.(now := e.at), Step(c, s, e);
    assert Sound(s0) && Enabled(c, s0, e);
    hide Act, Worked, Fed, Sound;
    if ByWorker(e) {
      ActWorks(c, s0, e);
      StoppedGate(c, s0, e);
      WorkedStopped(s0, s', e.w);
    } else {
      ActFeeds(c, s0, e);
      FedStopped(c, s0, s');
    }
  }

  lemma {:induction false} StoppedRun(c: Config, s: State, es: seq<Event>)
    requires ValidConfig(c) && Inv(c, s) && Stopped(s) && Feasible(c, s, es)
    ensures var s' := Exec(c, s, es);
      && Stopped(s') && s'.counts.ingested == s.counts.ingested
      && |s'.starts| + PastGate(s') <= |s.starts| + PastGate(s)
      && NobodyEnters(s, s')
  {
    if es == [] {
    } else {
      hide Step, PastGate, Stopped, Inv;
      var m := Exec(c, s, Front(es));
      StoppedRun(c, s, Front(es));
      RunInv(c, s, Front(es));
      InvSound(c, m);
      hide Sound;
      StoppedStep(c, m, Last(es));
    }
  }

  // ---------------------------------------------------------------- no call for what still waits

  predicate AtGate(st: Stage, i: nat, t: seq<Verdict>) {
    st.Gate? && st.task.idx == i && st.task.trace == t
  }

  /** Item i has not passed the gate with the calls t behind it: it is being put, queued, or with
      a worker at the gate. */
  ghost predicate Waiting(s: State, i: nat, t: seq<Verdict>) {
    || (t == [] && (Queued(s.queue, i) > 0 || Inbound(s, i) > 0))
    || (exists w :: 0 <= w < |s.workers| && AtGate(s.workers[w], i, t))
  }

  /** Whatever row or worker has item i, it has it with the calls t and no other. */
  ghost predicate Unserved(s: State, i: nat, t: seq<Verdict>) {
    && (forall j :: 0 <= j < |s.books.log| && s.books.log[j].task.idx == i ==> s.books.log[j].task.trace == t)
    && (forall w :: 0 <= w < |s.workers| && InStage(s.workers[w], i) == 1 ==>
          s.workers[w].Gate? && s.workers[w].task.trace == t)
    && (Queued(s.queue, i) > 0 || Inbound(s, i) > 0 ==> t == [])
  }

  lemma {:induction false} HeldAtLeast(ws: seq<Stage>, w: nat, i: nat)
    requires w < |ws|
    ensures Held(ws, i) >= InStage(ws[w], i)
  {
    if w == 0 {
    } else {
      HeldAtLeast(ws[1..], w - 1, i);
    }
  }

  lemma OneHolder(ws: seq<Stage>, v: nat, w: nat, i: nat)
    requires v < |ws| && w < |ws| && v != w && Held(ws, i) <= 1 && InStage(ws[v], i) == 1
    ensures InStage(ws[w], i) == 0
  {
    hide Held;
    HeldUpdate(ws, v, Idle, i);
    HeldAtLeast(ws[v := Idle], w, i);
  }

  lemma WaitingIsUnserved(s: State, i: nat, t: seq<Verdict>)
    requires Located(s) && Waiting(s, i, t)
    ensures Unserved(s, i, t)
  {
    hide Held, Queued, Resolved;
    assert Places(s, i) <= 1;
    forall j | 0 <= j < |s.books.log| && s.books.log[j].task.idx == i ensures Resolved(s.books.log, i) > 0 {
      RowResolves(s.books.log, j);
    }
    forall w | 0 <= w < |s.workers| ensures InStage(s.workers[w], i) <= Held(s.workers, i) {
      HeldAtLeast(s.workers, w, i);
    }
    if v :| 0 <= v < |s.workers| && AtGate(s.workers[v], i, t) {
      forall w | 0 <= w < |s.workers| && w != v ensures InStage(s.workers[w], i) == 0 {
        OneHolder(s.workers, v, w, i);
      }
    }
  }

  lemma GetUnserved(s: State, w: nat, i: nat, t: seq<Verdict>)
    requires w < |s.workers| && s.workers[w].Idle? && s.queue != [] && Unserved(s, i, t)
    ensures Unserved(OnGet(s, w), i, t)
  {
    hide Queued, Bump;
    QueuedHead(s.queue, i);
  }

  lemma PassUnserved(c: Config, s: State, w: nat, i: nat, t: seq<Verdict>)
    requires w < |s.workers| && s.workers[w].Gate? && Stopped(s) && Unserved(s, i, t)
    ensures Unserved(OnPass(c, s, w), i, t)
  {
    hide Queued, Bump, Allow;
  }

  /** A step of a worker that is past the gate is about another item. */
  lemma OtherUnserved(s: State, s': State, w: nat, i: nat, t: seq<Verdict>)
    requires Worked(s, s', w) && Unserved(s, i, t)
    requires s.workers[w].Acquire? || s.workers[w].Calling? || s.workers[w].Pausing?
    ensures Unserved(s', i, t)
  {
    hide Queued, Bump, BudgetLimit, RowFits, FlagsGrow;
    assert InStage(s.workers[w], i) == 0;
    assert s.queue[0..] == s.queue;
    if s'.workers[w].Idle? { assert s'.books.log == s.books.log + [s'.books.log[|s.books.log|]]; }
  }

  lemma FedUnserved(c: Config, s: State, s': State, i: nat, t: seq<Verdict>)
    requires Fed(c, s, s') && Stopped(s) && Unserved(s, i, t)
    ensures Unserved(s', i, t)
  {
    hide Queued;
    if s.ingest.Putting? { QueuedAppend(s.queue, s.ingest.entry, i); }
    QueuedAppend(s.queue, Shutdown, i);
  }

  lemma SameUnserved(s: State, s0: State, i: nat, t: seq<Verdict>)
    requires s0 == s.(now := s0.now)
    ensures Sound(s) ==> Sound(s0)
    ensures Unserved(s, i, t) ==> Unserved(s0, i, t)
  {
    hide Queued;
  }

  lemma StepUnserved(c: Config, s: State, e: Event, i: nat, t: seq<Verdict>)
    requires Sound(s) && Stopped(s) && Enabled(c, s, e) && Unserved(s, i, t)
    ensures Unserved(Step(c, s, e), i, t)
  {
    hide Worked, Fed, Sound, Unserved, OnGet, OnPass, OnToken, OnAnswer, OnResume, DelayOk;
    var s0 := s.(now := e.at);
    SameUnserved(s, s0, i, t);
    match e
    case Get(w, _) => GetUnserved(s0, w, i, t);
    case Pass(w, _) => PassUnserved(c, s0, w, i, t);
    case Token(w, _) => ActWorks(c, s0, e); OtherUnserved(s0, Act(c, s0, e), w, i, t);
    case Answer(w, _, _, _, _) => ActWorks(c, s0, e); OtherUnserved(s0, Act(c, s0, e), w, i, t);
    case Resume(w, _, _) => ActWorks(c, s0, e); OtherUnserved(s0, Act(c, s0, e), w, i, t);
    case _ => ActFeeds(c, s0, e); FedUnserved(c, s0, Act(c, s0, e), i, t);
  }

  lemma {:induction false} RunUnserved(c: Config, s: State, es: seq<Event>, i: nat, t: seq<Verdict>)
    requires ValidConfig(c) && Inv(c, s) && Stopped(s) && Feasible(c, s, es) && Unserved(s, i, t)
    ensures Unserved(Exec(c, s, es), i, t)
  {
    if es == [] {
    } else {
      hide Inv, Unserved, Step, Enabled, Sound;
      RunUnserved(c, s, Front(es), i, t);
      StoppedRun(c, s, Front(es));
      RunInv(c, s, Front(es));
      InvSound(c, Exec(c, s, Front(es)));
      StepUnserved(c, Exec(c, s, Front(es)), Last(es), i, t);
    }
  }

  /** In s' every row about item i has the calls t. */
  ghost predicate RowsHave(s': State, i: nat, t: seq<Verdict>) {
    forall j :: 0 <= j < |s'.books.log| && s'.books.log[j].task.idx == i ==> s'.books.log[j].task.trace == t
  }

  /** No item that waits in s has made another call by the time a row about it is written. */
  ghost predicate WaitersUncalled(s: State, s': State) {
    forall i: nat, t: seq<Verdict> :: Waiting(s, i, t) ==> RowsHave(s', i, t)
  }

  lemma UnservedRows(s: State, i: nat, t: seq<Verdict>)
    requires Unserved(s, i, t)
    ensures RowsHave(s, i, t)
  {
    hide Queued;
  }

  lemma InvLocated(c: Config, s: State)
    requires Inv(c, s)
    ensures Located(s)
  {
  }

  lemma WaitersStayUncalled(c: Config, s: State, after: seq<Event>)
    requires ValidConfig(c) && Inv(c, s) && Stopped(s) && Feasible(c, s, after)
    ensures WaitersUncalled(s, Exec(c, s, after))
  {
    hide Waiting, Unserved, Exec, Feasible;
    InvLocated(c, s);
    forall i: nat, t: seq<Verdict> | Waiting(s, i, t) ensures RowsHave(Exec(c, s, after), i, t) {
      WaitingIsUnserved(s, i, t);
      RunUnserved(c, s, after, i, t);
      UnservedRows(Exec(c, s, after), i, t);
    }
  }

  // ---------------------------------------------------------------- the theorems

  lemma AbortLeavesSetter(c: Config, s: State, e: Event)
    requires Enabled(c, s, e) && !s.flags.aborted && Step(c, s, e).flags.aborted
    ensures ByWorker(e) && e.w < |Step(c, s, e).workers| && Step(c, s, e).workers[e.w] == Idle
  {
    hide Bump, BudgetLimit, Allow, TryTake, Record, SetRate, SpendGuardTrips, DecreaseDue, Classify, DelayOk;
  }

  /** Prompt abort. Take any run up to the step that sets the abort flag, and any continuation:
      at most concurrency - 1 more provider calls start, each by a worker that was already past
      the gate with its item; no row is ever ingested again; and every item not past the gate
      then gets its row without another call. */
  lemma PromptAbort(c: Config, before: seq<Event>, e: Event, after: seq<Event>)
    requires ValidConfig(c) && Feasible(c, Init(c), before)
    requires !Exec(c, Init(c), before).flags.aborted
    requires Enabled(c, Exec(c, Init(c), before), e)
    requires Step(c, Exec(c, Init(c), before), e).flags.aborted
    requires Feasible(c, Step(c, Exec(c, Init(c), before), e), after)
    ensures var s := Step(c, Exec(c, Init(c), before), e);
      var s' := Exec(c, s, after);
      && |s'.starts| <= |s.starts| + c.concurrency - 1
      && s'.counts.ingested == s.counts.ingested
      && NobodyEnters(s, s') && WaitersUncalled(s, s')
  {
    InitInv(c);
    RunInv(c, Init(c), before);
    var p := Exec(c, Init(c), before);
    var s := Step(c, p, e);
    StepInv(c, p, e);
    InvSound(c, s);
    AbortLeavesSetter(c, p, e);
    StoppedRun(c, s, after);
    WaitersStayUncalled(c, s, after);
    TallyBounds(s.workers);
    TallyBounds(Exec(c, s, after).workers);
    TallyPresent(s.workers, e.w);
    hide Exec, Step, Inv, TallyOf;
  }

  /** After a cancel at most `concurrency` more calls start, nothing more is ingested, and every
      item not past the gate then gets its row without another call. */
  lemma PromptCancel(c: Config, before: seq<Event>, after: seq<Event>)
    requires ValidConfig(c) && Feasible(c, Init(c), before) && Exec(c, Init(c), before).flags.cancelled
    requires Feasible(c, Exec(c, Init(c), before), after)
    ensures var s := Exec(c, Init(c), before);
      var s' := Exec(c, s, after);
      && |s'.starts| <= |s.starts| + c.concurrency
      && s'.counts.ingested == s.counts.ingested
      && NobodyEnters(s, s') && WaitersUncalled(s, s')
  {
    InitInv(c);
    RunInv(c, Init(c), before);
    var s := Exec(c, Init(c), before);
    InvSound(c, s);
    StoppedRun(c, s, after);
    WaitersStayUncalled(c, s, after);
    TallyBounds(s.workers);
    TallyBounds(Exec(c, s, after).workers);
  }
}
