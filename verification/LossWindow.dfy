// What a crash can take from a running job: rows that its workers have counted and that wait for
// the sink's writer, because a worker that never has to wait never lets the writer run.

module LossWindow {
  import opened Models
  import opened Retry
  import opened RateLimit
  import opened Job
  import opened JobLedger
  import opened JobRuns
  import opened JobDriver
  import opened JobOverspend
  import ResultLog
  import TornLog
  import Sink
  import ResultFile

  // ---------------------------------------------------------------- how long a backlog can grow

  predicate ByOnly(es: seq<Event>, w: nat) { forall i :: 0 <= i < |es| ==> ByWorker(es[i]) && es[i].w == w }

  function InHand(s: State, w: nat): nat {
    if w < |s.workers| && !s.workers[w].Idle? && !s.workers[w].Exited? then 1 else 0
  }

  lemma RowsFromHand(s: State, s': State, w: nat)
    requires Worked(s, s', w)
    ensures |s'.books.log| + |s'.queue| + InHand(s', w) <= |s.books.log| + |s.queue| + InHand(s, w)
  {
    hide BudgetLimit, Bump, RowFits, FlagsGrow, Subject;
  }

  lemma HandStays(s: State, s0: State, w: nat)
    requires s0 == s.(now := s0.now)
    ensures InHand(s0, w) == InHand(s, w)
  {
  }

  lemma {:induction false} RowsByOne(c: Config, s: State, es: seq<Event>, w: nat)
    requires ValidConfig(c) && Inv(c, s) && Feasible(c, s, es) && ByOnly(es, w)
    ensures var s' := Exec(c, s, es);
      |s'.books.log| + |s'.queue| + InHand(s', w) <= |s.books.log| + |s.queue| + InHand(s, w)
  {
    if es == [] {
    } else {
      hide Act, Worked, Inv, Sound, InHand;
      var f, e := Front(es), Last(es);
      assert ByWorker(e) && e.w == w by { assert e == es[|es| - 1]; }
      assert ByOnly(f, w) by { assert forall i :: 0 <= i < |f| ==> f[i] == es[i]; }
      RowsByOne(c, s, f, w);
      RunInv(c, s, f);
      var p := Exec(c, s, f);
      var p0 := p.(now := e.at);
      InvSound(c, p);
      SoundAnytime(p, p0);
      ActWorks(c, p0, e);
      RowsFromHand(p0, Act(c, p0, e), w);
      HandStays(p, p0, w);
    }
  }

  lemma QueueWithinSlots(c: Config, s: State)
    requires Inv(c, s)
    ensures |s.queue| <= 4 * c.concurrency
  {
  }

  lemma PendingWithin(c: Config, s: State)
    requires ValidConfig(c) && Inv(c, s)
    ensures s.counts.ingested == |s.books.log| + s.counts.pending && 0 <= s.counts.pending <= 5 * c.concurrency + 1
  {
    TallyBounds(s.workers);
    QueueBounds(s.queue);
  }

  /** However long one worker runs without another getting a turn, it writes at most one row more
      than the queue holds: 4 * concurrency + 1. And however many workers run, as long as ingest
      takes in nothing new, they write at most 5 * concurrency + 1. */
  lemma BacklogBound(c: Config, before: seq<Event>, after: seq<Event>)
    requires ValidConfig(c) && Feasible(c, Init(c), before) && Feasible(c, Exec(c, Init(c), before), after)
    ensures var s := Exec(c, Init(c), before);
      var s' := Exec(c, s, after);
      && (forall w: nat :: ByOnly(after, w) ==> |s'.books.log| - |s.books.log| <= 4 * c.concurrency + 1)
      && (s'.counts.ingested == s.counts.ingested ==> |s'.books.log| - |s.books.log| <= 5 * c.concurrency + 1)
  {
    hide Exec, Feasible, Inv, Counted, ByOnly;
    InitInv(c);
    RunInv(c, Init(c), before);
    var s := Exec(c, Init(c), before);
    QueueWithinSlots(c, s);
    forall w: nat | ByOnly(after, w)
      ensures |Exec(c, s, after).books.log| - |s.books.log| <= 4 * c.concurrency + 1
    {
      RowsByOne(c, s, after, w);
    }
    RunInv(c, s, after);
    PendingWithin(c, s);
    PendingWithin(c, Exec(c, s, after));
  }

  // ---------------------------------------------------------------- a run that reaches it

  predicate AllItems(q: seq<Entry>) { forall i :: 0 <= i < |q| ==> q[i].Item? }

  /** Nothing is answered yet, worker 0 is in a call, and k items are queued. */
  ghost predicate Filled(c: Config, s: State, k: nat) {
    && s.ingest.Reading? && |s.queue| == k <= Slots(c) && AllItems(s.queue)
    && !s.flags.cancelled && !s.flags.aborted && s.next == s.counts.ingested == c.concurrency + k
    && |s.workers| == c.concurrency >= 1 && s.workers[0].Calling?
    && ValidBucket(s.control.bucket) && s.control.bucket.last <= s.now && NoFailures(s.control.breaker)
    && s.counts.succeeded == 0 && s.counts.failed == 0
  }

  lemma FillNext(c: Config, es: seq<Event>, k: nat) returns (es': seq<Event>)
    requires Smooth(c) && Feasible(c, Init(c), es) && k < Slots(c) && AllPrompts(c.rows, c.concurrency + k + 1)
    requires Filled(c, Exec(c, Init(c), es), k)
    ensures Feasible(c, Init(c), es + es') && Filled(c, Exec(c, Init(c), es + es'), k + 1)
  {
    hide Exec, Feasible, NoFailures, ValidBucket;
    var s := Exec(c, Init(c), es);
    ExecNext(c, Init(c), es, Pull(s.now));
    ExecNext(c, Init(c), es + [Pull(s.now)], Put(s.now));
    es' := [Pull(s.now), Put(s.now)];
    assert es + [Pull(s.now)] + [Put(s.now)] == es + es';
  }

  lemma {:induction false} Fill(c: Config, es: seq<Event>, k: nat) returns (es': seq<Event>)
    requires Smooth(c) && Feasible(c, Init(c), es) && k <= Slots(c) && AllPrompts(c.rows, c.concurrency + k)
    requires Filled(c, Exec(c, Init(c), es), 0)
    ensures Feasible(c, Init(c), es + es') && Filled(c, Exec(c, Init(c), es + es'), k)
    decreases k
  {
    hide Exec, Feasible, Filled;
    if k == 0 {
      es' := [];
      assert es + es' == es;
    } else {
      es' := Fill(c, es, k - 1);
      var more := FillNext(c, es + es', k - 1);
      assert es + es' + more == es + (es' + more);
      es' := es' + more;
    }
  }

  /** Every worker is in its first call and the queue is full. */
  lemma Busy(c: Config) returns (es: seq<Event>)
    requires Smooth(c) && AllPrompts(c.rows, 5 * c.concurrency)
    ensures Feasible(c, Init(c), es) && Filled(c, Exec(c, Init(c), es), Slots(c))
  {
    hide Exec, Feasible, Served, NoFailures, ValidBucket;
    ServedAtFirst(c);
    var starts := StartBurst(c, [], c.concurrency, 0, 0.0);
    assert [] + starts == starts;
    var more := Fill(c, starts, Slots(c));
    es := starts + more;
  }

  /** A cancelled job whose worker 0 is between two items, with k items queued. */
  ghost predicate Draining(s: State, k: nat, failed: nat) {
    && |s.queue| == k && AllItems(s.queue) && s.flags.cancelled
    && s.workers != [] && s.workers[0].Idle? && s.counts.succeeded == 1 && s.counts.failed == failed
  }

  /** An event at which worker 0 goes on without waiting: it gets from a queue that is not empty,
      or is at the gate of a cancelled job. */
  predicate GoesOn(e: Event) { (e.Get? || e.Pass?) && e.w == 0 }

  predicate AllGoOn(es: seq<Event>) { forall i :: 0 <= i < |es| ==> GoesOn(es[i]) }

  lemma DrainNext(c: Config, s: State, es: seq<Event>, k: nat, failed: nat) returns (es': seq<Event>)
    requires Feasible(c, s, es) && k > 0 && Draining(Exec(c, s, es), k, failed)
    ensures Feasible(c, s, es + es') && Draining(Exec(c, s, es + es'), k - 1, failed + 1) && AllGoOn(es')
  {
    hide Exec, Feasible, Bump;
    var p := Exec(c, s, es);
    ExecNext(c, s, es, Get(0, p.now));
    ExecNext(c, s, es + [Get(0, p.now)], Pass(0, p.now));
    es' := [Get(0, p.now), Pass(0, p.now)];
    assert es + [Get(0, p.now)] + [Pass(0, p.now)] == es + es';
  }

  lemma {:induction false} Drain(c: Config, s: State, es: seq<Event>, n: nat, k: nat) returns (es': seq<Event>)
    requires Feasible(c, s, es) && k <= n && Draining(Exec(c, s, es), n, 0)
    ensures Feasible(c, s, es + es') && Draining(Exec(c, s, es + es'), n - k, k) && AllGoOn(es')
    decreases k
  {
    hide Exec, Feasible, Draining;
    if k == 0 {
      es' := [];
      assert es + es' == es;
    } else {
      es' := Drain(c, s, es, n, k - 1);
      var more := DrainNext(c, s, es + es', n - (k - 1), k - 1);
      assert es + es' + more == es + (es' + more);
      es' := es' + more;
    }
  }

  /** Worker 0's call is answered in a cancelled job with a full queue. */
  lemma AnswerCancelled(c: Config, s: State) returns (e: Event)
    requires Smooth(c) && Filled(c, s.(flags := s.flags.(cancelled := false)), Slots(c)) && s.flags.cancelled
    ensures Enabled(c, s, e) && e.Answer? && e.w == 0 && Draining(Step(c, s, e), Slots(c), 0)
  {
    hide NoFailures, ValidBucket, SpendGuardTrips, OnSuccess;
    e := AnswerNow(s, 0, Response(200, false, 0, 0, 0.0));
    SucceedCall(c, s, 0, Response(200, false, 0, 0, 0.0));
    hide Step;
  }

  lemma CancelBusy(c: Config, es: seq<Event>) returns (s: State)
    requires Feasible(c, Init(c), es) && Filled(c, Exec(c, Init(c), es), Slots(c))
    ensures var cancel := Cancel(Exec(c, Init(c), es).now);
      Feasible(c, Init(c), es + [cancel]) && s == Exec(c, Init(c), es + [cancel])
    ensures Filled(c, s.(flags := s.flags.(cancelled := false)), Slots(c)) && s.flags.cancelled
    ensures s.counts.succeeded == 0 && s.counts.failed == 0
  {
    hide Exec, Feasible, NoFailures, ValidBucket;
    var p := Exec(c, Init(c), es);
    ExecNext(c, Init(c), es, Cancel(p.now));
    s := Exec(c, Init(c), es + [Cancel(p.now)]);
    assert s.(flags := s.flags.(cancelled := false)) == p;
  }

  lemma OneStep(c: Config, s: State, e: Event)
    requires Enabled(c, s, e)
    ensures Feasible(c, s, [e]) && Exec(c, s, [e]) == Step(c, s, e)
  {
    hide Enabled, Step;
    assert Front([e]) == [] && Feasible(c, s, []) && Exec(c, s, []) == s;
  }

  lemma DrainingCounts(s: State, k: nat, failed: nat)
    requires Draining(s, k, failed)
    ensures s.counts.succeeded == 1 && s.counts.failed == failed
  {
  }

  /** The bound of a worker that runs alone is reached: in every job with prompts enough there is a
      run in which nothing is counted yet, the job is cancelled, and then one worker, whose call
      has come back, counts 4 * concurrency + 1 rows without once waiting. */
  lemma BacklogIsReached(c: Config) returns (before: seq<Event>, answer: Event, after: seq<Event>)
    requires Smooth(c) && AllPrompts(c.rows, 5 * c.concurrency)
    ensures Feasible(c, Init(c), before) && Feasible(c, Exec(c, Init(c), before), [answer] + after)
    ensures answer.Answer? && answer.w == 0 && AllGoOn(after)
    ensures var s := Exec(c, Init(c), before);
      var s' := Exec(c, s, [answer] + after);
      && s.books.log == [] && s.flags.cancelled
      && s'.counts.succeeded + s'.counts.failed == |s'.books.log| == 4 * c.concurrency + 1
  {
    hide Exec, Feasible, Draining, Enabled, Step;
    var busy := Busy(c);
    var s := CancelBusy(c, busy);
    before := busy + [Cancel(Exec(c, Init(c), busy).now)];
    answer := AnswerCancelled(c, s);
    OneStep(c, s, answer);
    after := Drain(c, s, [answer], Slots(c), Slots(c));
    ExecAppend(c, Init(c), before, [answer] + after);
    Conservation(c, before);
    Conservation(c, before + ([answer] + after));
    DrainingCounts(Exec(c, s, [answer] + after), 0, Slots(c));
  }

  // ---------------------------------------------------------------- counted, and gone

  /** Where the promise holds: a job's counted rows that are not on disk are those that wait in the
      sink's queue or for its next flush. A crash loses fewer than 100 of them if and only if
      these are fewer than 100. */
  lemma CountedRowsAtStake(c: Config, es: seq<Event>, t: ResultFile.Texts, start: real, ss: seq<Sink.Event>)
    requires ValidConfig(c) && Feasible(c, Init(c), es) && Sink.Feasible(start, ss) && Sink.Close !in ss
    requires Sink.Exec(start, ss).submitted == ResultFile.Lines(t, Exec(c, Init(c), es).books.log)
    ensures var s, f := Exec(c, Init(c), es), Sink.Exec(start, ss);
      && s.counts.succeeded + s.counts.failed - f.flushed == |f.queue| + f.unflushed
      && (s.counts.succeeded + s.counts.failed - f.flushed < 100 <==> |f.queue| + f.unflushed < 100)
  {
    hide Exec, Feasible, Sink.Exec, Sink.Feasible;
    Sink.LossWindow(start, ss);
    Conservation(c, es);
  }

  /** All the text that has been written to the file. */
  function FileText(f: Sink.State): string { ResultLog.Written(f.rows) }

  lemma NothingOnDisk()
    ensures ResultLog.Replayed(ResultLog.Written([])) == ResultLog.NOTHING
  {
    TornLog.ReplayWhole([]);
  }

  /** Where it fails: every job with prompts enough has a run, and its sink a run with no turn of the
      writer, after which the job has counted 4 * concurrency + 1 rows and a replay of what is on
      disk finds none. With 25 workers and more that is over 100 rows. */
  lemma CountedRowsLost(c: Config, t: ResultFile.Texts, start: real) returns (es: seq<Event>, ss: seq<Sink.Event>)
    requires Smooth(c) && AllPrompts(c.rows, 5 * c.concurrency) && ResultFile.ValidTexts(t)
    ensures Feasible(c, Init(c), es) && Sink.Feasible(start, ss) && Sink.SubmitsOnly(ss)
    ensures var s, f := Exec(c, Init(c), es), Sink.Exec(start, ss);
      && f.submitted == ResultFile.Lines(t, s.books.log)
      && s.counts.succeeded + s.counts.failed == 4 * c.concurrency + 1
      && f.rows == [] && ResultLog.Replayed(FileText(f)) == ResultLog.NOTHING
  {
    hide Exec, Feasible, Sink.Exec, Sink.Feasible, ResultFile.Lines, ResultFile.ValidTexts;
    var before, answer, after := BacklogIsReached(c);
    es := before + ([answer] + after);
    ExecAppend(c, Init(c), before, [answer] + after);
    var rows := ResultFile.Lines(t, Exec(c, Init(c), es).books.log);
    ResultFile.LinesValid(t, Exec(c, Init(c), es).books.log);
    ss := Sink.SubmittedMayWait(start, rows);
    NothingOnDisk();
  }
}
