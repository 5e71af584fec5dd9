// Where every ingested item is at every moment of a job, and what the books say about it:
// exactly-once, the drain by sentinels, and the agreement of the counters with the rows.

module JobCustody {
  import opened Models
  import opened Retry
  import opened Job
  import opened JobLedger

  // ---------------------------------------------------------------- custody of items

  function InStage(st: Stage, i: nat): nat {
    if st.Idle? || st.Exited? then 0 else if st.task.idx == i then 1 else 0
  }

  function InEntry(x: Entry, i: nat): nat {
    if x.Shutdown? then 0 else if x.idx == i then 1 else 0
  }

  /** In how many of these places item i is. */
  function Held(ws: seq<Stage>, i: nat): nat {
    if ws == [] then 0 else InStage(ws[0], i) + Held(ws[1..], i)
  }

  function Queued(q: seq<Entry>, i: nat): nat {
    if q == [] then 0 else InEntry(q[0], i) + Queued(q[1..], i)
  }

  function Resolved(log: seq<OutRow>, i: nat): nat {
    if log == [] then 0 else Resolved(Front(log), i) + (if Last(log).task.idx == i then 1 else 0)
  }

  function Inbound(s: State, i: nat): nat {
    if s.ingest.Putting? then InEntry(s.ingest.entry, i) else 0
  }

  function Places(s: State, i: nat): nat {
    Resolved(s.books.log, i) + Queued(s.queue, i) + Held(s.workers, i) + Inbound(s, i)
  }

  /** Every ingested item is in exactly one place: in ingest's hands, queued, held by one
      worker, or resolved by one row; nothing else is anywhere. */
  ghost predicate Located(s: State) {
    forall i: nat :: Places(s, i) == if i < s.counts.ingested then 1 else 0
  }

  lemma {:induction false} HeldUpdate(ws: seq<Stage>, w: nat, st: Stage, i: nat)
    requires w < |ws|
    ensures Held(ws[w := st], i) + InStage(ws[w], i) == Held(ws, i) + InStage(st, i)
  {
    if w > 0 {
      assert ws[w := st][1..] == ws[1..][w - 1 := st];
      HeldUpdate(ws[1..], w - 1, st, i);
    } else {
      assert ws[w := st][1..] == ws[1..];
    }
  }

  lemma {:induction false} QueuedAppend(q: seq<Entry>, x: Entry, i: nat)
    ensures Queued(q + [x], i) == Queued(q, i) + InEntry(x, i)
  {
    if q == [] {
      assert (q + [x])[1..] == [];
    } else {
      assert (q + [x])[1..] == q[1..] + [x];
      QueuedAppend(q[1..], x, i);
    }
  }

  lemma ResolvedAppend(log: seq<OutRow>, row: OutRow, i: nat)
    ensures Resolved(log + [row], i) == Resolved(log, i) + (if row.task.idx == i then 1 else 0)
  {
    assert Front(log + [row]) == log;
  }

  lemma {:induction false} ResolvedHasRow(log: seq<OutRow>, i: nat)
    ensures Resolved(log, i) > 0 <==> exists j :: 0 <= j < |log| && log[j].task.idx == i
  {
    if log == [] {
    } else {
      ResolvedHasRow(Front(log), i);
      assert log == Front(log) + [Last(log)];
      if Last(log).task.idx == i { assert log[|log| - 1].task.idx == i; }
      if j :| 0 <= j < |log| && log[j].task.idx == i && j < |log| - 1 { assert Front(log)[j] == log[j]; }
      if j :| 0 <= j < |Front(log)| && Front(log)[j].task.idx == i { assert log[j] == Front(log)[j]; }
    }
  }

  lemma ResolvedAt(log: seq<OutRow>, i: nat) returns (j: nat)
    requires Resolved(log, i) > 0
    ensures j < |log| && log[j].task.idx == i
  {
    ResolvedHasRow(log, i);
    j :| j < |log| && log[j].task.idx == i;
  }

  lemma RowResolves(log: seq<OutRow>, j: nat)
    requires j < |log|
    ensures Resolved(log, log[j].task.idx) > 0
  {
    ResolvedHasRow(log, log[j].task.idx);
  }

  lemma {:induction false} NothingHeld(ws: seq<Stage>, i: nat)
    requires forall w :: 0 <= w < |ws| ==> ws[w] == Idle
    ensures Held(ws, i) == 0
  {
    if ws == [] {
    } else {
      NothingHeld(ws[1..], i);
    }
  }

  lemma InitLocated(c: Config)
    ensures Located(Init(c))
  {
    forall i: nat ensures Places(Init(c), i) == 0 { NothingHeld(Init(c).workers, i); }
  }

  lemma QueuedHead(q: seq<Entry>, i: nat)
    requires q != []
    ensures Queued(q, i) == InEntry(q[0], i) + Queued(q[1..], i)
  {
  }

  lemma WorkedPlaces(s: State, s': State, w: nat, i: nat)
    requires Worked(s, s', w)
    ensures Places(s', i) == Places(s, i) && s'.counts.ingested == s.counts.ingested
  {
    hide Held, Queued, Resolved, Bump, BudgetLimit, RowFits;
    HeldUpdate(s.workers, w, s'.workers[w], i);
    if s.workers[w].Idle? { QueuedHead(s.queue, i); }
    assert s.queue[0..] == s.queue;
    if s'.workers[w].Idle? { ResolvedAppend(s.books.log, s'.books.log[|s.books.log|], i); }
  }

  lemma FedPlaces(c: Config, s: State, s': State, i: nat)
    requires Fed(c, s, s')
    ensures Places(s', i) == Places(s, i) + (if s'.counts.ingested > s.counts.ingested == i then 1 else 0)
    ensures s.counts.ingested <= s'.counts.ingested <= s.counts.ingested + 1
  {
    hide Held, Queued, Resolved;
    if s.ingest.Putting? { QueuedAppend(s.queue, s.ingest.entry, i); }
    QueuedAppend(s.queue, Shutdown, i);
  }

  lemma LocatedKept(c: Config, s: State, e: Event)
    requires Located(s) && Sound(s) && Enabled(c, s, e)
    ensures Located(Step(c, s, e))
  {
    var s0, s' := s.(now := e.at), Step(c, s, e);
    assert Sound(s0) && Enabled(c, s0, e);
    if ByWorker(e) { ActWorks(c, s0, e); } else { ActFeeds(c, s0, e); }
    hide Act, Step, Worked, Fed;
    forall i: nat ensures Places(s', i) == if i < s'.counts.ingested then 1 else 0 {
      assert Places(s0, i) == Places(s, i);
      if ByWorker(e) { WorkedPlaces(s0, s', e.w, i); } else { FedPlaces(c, s0, s', i); }
    }
  }

  // ---------------------------------------------------------------- the drain by sentinels

  ghost predicate OnlyShutdowns(q: seq<Entry>) {
    forall x :: x in q ==> x.Shutdown?
  }

  ghost predicate ShutdownsLast(q: seq<Entry>) {
    forall i, j :: 0 <= i < j < |q| && q[i].Shutdown? ==> q[j].Shutdown?
  }

  /** One SHUTDOWN per worker, all queued behind the items; each worker that left took one. */
  ghost predicate Draining(c: Config, s: State) {
    && ShutdownsLast(s.queue)
    && (TallyOf(s.workers).exited > 0 ==> OnlyShutdowns(s.queue))
    && match s.ingest
       case Reading => Shutdowns(s.queue) == 0 && TallyOf(s.workers).exited == 0
       case Putting(x) => !x.Shutdown? && Shutdowns(s.queue) == 0 && TallyOf(s.workers).exited == 0
       case Closing(sent) => sent <= c.concurrency && Shutdowns(s.queue) + TallyOf(s.workers).exited == sent
       case Finished => s.queue == [] && TallyOf(s.workers).exited == c.concurrency
  }

  lemma {:induction false} AllExited(ws: seq<Stage>)
    requires forall w :: 0 <= w < |ws| ==> ws[w] == Exited
    ensures TallyOf(ws).exited == |ws|
  {
    if ws == [] {
    } else {
      AllExited(ws[1..]);
    }
  }

  lemma {:induction false} OnlyShutdownsCount(q: seq<Entry>)
    requires OnlyShutdowns(q)
    ensures Shutdowns(q) == |q|
  {
    if q == [] {
    } else {
      assert q[0].Shutdown?;
      OnlyShutdownsCount(q[1..]);
    }
  }

  lemma HeadOff(q: seq<Entry>)
    requires q != [] && ShutdownsLast(q)
    ensures ShutdownsLast(q[1..])
    ensures Shutdowns(q) == Shutdowns(q[1..]) + (if q[0].Shutdown? then 1 else 0)
    ensures q[0].Shutdown? ==> OnlyShutdowns(q[1..])
    ensures OnlyShutdowns(q) ==> OnlyShutdowns(q[1..])
  {
  }

  lemma FedDraining(c: Config, s: State, s': State)
    requires Draining(c, s) && |s.workers| == c.concurrency >= 1 && Fed(c, s, s')
    ensures Draining(c, s')
  {
    hide TallyOf, Shutdowns;
    QueueBounds(s.queue);
    QueueAppend(s.queue, Shutdown);
    if s.ingest.Putting? { QueueAppend(s.queue, s.ingest.entry); }
    if s'.ingest.Finished? && s.ingest.Closing? {
      AllExited(s.workers);
      OnlyShutdownsCount(s.queue);
    }
  }

  lemma WorkedDraining(c: Config, s: State, s': State, w: nat)
    requires Draining(c, s) && |s.workers| == c.concurrency && Worked(s, s', w)
    ensures Draining(c, s')
  {
    hide TallyOf, Shutdowns, RowAdded, NoRow, BudgetLimit;
    TallyUpdate(s.workers, w, s'.workers[w]);
    TallyBounds(s.workers);
    TallyPresent(s.workers, w);
    if s.workers[w].Idle? { HeadOff(s.queue); }
    assert s.queue[0..] == s.queue;
    hide ShutdownsLast, OnlyShutdowns;
  }

  lemma DrainingKept(c: Config, s: State, e: Event)
    requires Draining(c, s) && |s.workers| == c.concurrency >= 1
    requires Sound(s) && Enabled(c, s, e)
    ensures Draining(c, Step(c, s, e))
  {
    var s0 := s.(now := e.at);
    assert Draining(c, s0) && Sound(s0) && Enabled(c, s0, e);
    hide Draining, Act, Worked, Fed;
    if ByWorker(e) {
      ActWorks(c, s0, e);
      WorkedDraining(c, s0, Step(c, s, e), e.w);
    } else {
      ActFeeds(c, s0, e);
      FedDraining(c, s0, Step(c, s, e));
    }
  }

  // ---------------------------------------------------------------- the books

  function Successes(log: seq<OutRow>): nat {
    if log == [] then 0 else Successes(Front(log)) + (if Last(log).Done? then 1 else 0)
  }

  function ErrorsOf(log: seq<OutRow>, kind: FailureClass): nat {
    if log == [] then 0
    else ErrorsOf(Front(log), kind) + (if Last(log).Failed? && Last(log).kind == kind then 1 else 0)
  }

  function InputSum(log: seq<OutRow>): int {
    if log == [] then 0 else InputSum(Front(log)) + (if Last(log).Done? then Last(log).inputTokens else 0)
  }

  function OutputSum(log: seq<OutRow>): int {
    if log == [] then 0 else OutputSum(Front(log)) + (if Last(log).Done? then Last(log).outputTokens else 0)
  }

  function Booked(errors: map<FailureClass, nat>, kind: FailureClass): nat {
    if kind in errors then errors[kind] else 0
  }

  /** The counters, the usage totals and errors_by_class say exactly what the submitted rows
      say, and every row carries a label that the job's flags justify. */
  ghost predicate InAgreement(s: State) {
    && s.counts.succeeded == Successes(s.books.log)
    && s.counts.succeeded + s.counts.failed == |s.books.log|
    && s.books.inputTokens == InputSum(s.books.log) && s.books.outputTokens == OutputSum(s.books.log)
    && (forall kind :: Booked(s.books.errors, kind) == ErrorsOf(s.books.log, kind))
    && (forall kind :: kind in s.books.errors ==> s.books.errors[kind] > 0)
    && (forall i :: 0 <= i < |s.books.log| ==> RowFits(s.flags, s.books.log[i]))
  }

  /** One more row, with the books brought up to date. */
  lemma RowAgrees(s: State, s': State, task: Task)
    requires InAgreement(s) && RowAdded(s, s', task) && FlagsGrow(s.flags, s'.flags)
    ensures InAgreement(s')
  {
    var log, log' := s.books.log, s'.books.log;
    assert Front(log') == log && Last(log') == log'[|log|];
    forall i | 0 <= i < |log'| ensures RowFits(s'.flags, log'[i]) {
      if i < |log| { assert RowFits(s.flags, log[i]); }
    }
    forall kind ensures Booked(s'.books.errors, kind) == ErrorsOf(log', kind) {
      assert Booked(s.books.errors, kind) == ErrorsOf(log, kind);
    }
  }

  lemma SameBooksAgree(s: State, s': State)
    requires InAgreement(s) && s'.books == s.books
    requires s'.counts.succeeded == s.counts.succeeded && s'.counts.failed == s.counts.failed
    requires (s.flags.cancelled ==> s'.flags.cancelled) && (s.flags.aborted ==> s'.flags.aborted)
    ensures InAgreement(s')
  {
    forall i | 0 <= i < |s.books.log| ensures RowFits(s'.flags, s.books.log[i]) {
      assert RowFits(s.flags, s.books.log[i]);
    }
  }

  lemma WorkedAgrees(s: State, s': State, w: nat)
    requires InAgreement(s) && Worked(s, s', w)
    ensures InAgreement(s')
  {
    hide InAgreement, RowAdded, BudgetLimit, Subject;
    if s'.workers[w].Idle? {
      var task: Task :| RowAdded(s, s', task);
      RowAgrees(s, s', task);
    } else {
      SameBooksAgree(s, s');
    }
  }

  lemma FedAgrees(c: Config, s: State, s': State)
    requires InAgreement(s) && Fed(c, s, s')
    ensures InAgreement(s')
  {
    hide InAgreement;
    SameBooksAgree(s, s');
  }

  lemma AgreementKept(c: Config, s: State, e: Event)
    requires InAgreement(s) && Sound(s) && Enabled(c, s, e)
    ensures InAgreement(Step(c, s, e))
  {
    var s0, s' := s.(now := e.at), Step(c, s, e);
    assert Sound(s0) && Enabled(c, s0, e);
    SameBooksAgree(s, s0);
    hide InAgreement, Act, Worked, Fed;
    if ByWorker(e) {
      ActWorks(c, s0, e);
      WorkedAgrees(s0, s', e.w);
    } else {
      ActFeeds(c, s0, e);
      FedAgrees(c, s0, s');
    }
  }

  lemma {:induction false} RowsPartition(flags: Flags, log: seq<OutRow>)
    requires forall i :: 0 <= i < |log| ==> RowFits(flags, log[i])
    ensures |log| == Successes(log) + ErrorsOf(log, InvalidInput) + ErrorsOf(log, FatalAuth)
      + ErrorsOf(log, FatalBilling) + ErrorsOf(log, TransientExhausted) + ErrorsOf(log, Cancelled)
  {
    if log == [] {
    } else {
      assert RowFits(flags, log[|log| - 1]);
      RowsPartition(flags, Front(log));
    }
  }

  lemma {:induction false} RowOfKind(log: seq<OutRow>, kind: FailureClass) returns (i: nat)
    requires ErrorsOf(log, kind) > 0
    ensures i < |log| && log[i].Failed? && log[i].kind == kind
  {
    if Last(log).Failed? && Last(log).kind == kind {
      i := |log| - 1;
    } else {
      i := RowOfKind(Front(log), kind);
    }
  }

  /** errors_by_class sums to the failed counter and never holds success, throttled or transient. */
  lemma ErrorsSumToFailed(s: State)
    requires InAgreement(s)
    ensures Booked(s.books.errors, InvalidInput) + Booked(s.books.errors, FatalAuth)
        + Booked(s.books.errors, FatalBilling)
      + Booked(s.books.errors, TransientExhausted) + Booked(s.books.errors, Cancelled) == s.counts.failed
    ensures forall kind :: kind in s.books.errors ==>
      IsTerminalFailure(kind) && (kind == Cancelled ==> s.flags.cancelled) && (IsFatal(kind) ==> s.flags.aborted)
  {
    RowsPartition(s.flags, s.books.log);
    forall kind | kind in s.books.errors
      ensures IsTerminalFailure(kind)
      ensures (kind == Cancelled ==> s.flags.cancelled) && (IsFatal(kind) ==> s.flags.aborted)
    {
      assert Booked(s.books.errors, kind) == ErrorsOf(s.books.log, kind);
      var i := RowOfKind(s.books.log, kind);
      assert RowFits(s.flags, s.books.log[i]);
    }
  }
}
