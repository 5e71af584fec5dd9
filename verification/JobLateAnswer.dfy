// A half-open breaker is ended by whichever answer comes first: a run in which that is the answer
// to a call sent before the breaker opened, by a worker that is not probing.

module JobLateAnswer {
  import opened Models
  import opened Retry
  import opened RateLimit
  import opened Job
  import opened JobLedger
  import opened JobDriver
  import JobRuns

  /** The failures it takes to open a fresh breaker when nothing succeeds. */
  function Needed(c: Config): nat { Min(c.breaker.window, 10) }

  function AllFailed(n: nat): (outcomes: seq<bool>)
    ensures |outcomes| == n
  {
    if n == 0 then [] else [true] + AllFailed(n - 1)
  }

  lemma {:induction false} AllFailedCounts(n: nat)
    ensures Failures(AllFailed(n)) == n && AllFailed(n) + [true] == AllFailed(n + 1)
  {
    if n == 0 {
      assert AllFailed(1)[1..] == [];
    } else {
      AllFailedCounts(n - 1);
      assert AllFailed(n)[1..] == AllFailed(n - 1);
      assert AllFailed(n) + [true] == [true] + (AllFailed(n - 1) + [true]);
    }
  }

  /** Worker 1 is in a call that it started before anything was answered; j calls of worker 0 have
      failed. */
  ghost predicate Failing(c: Config, s: State, j: nat, held: Stage) {
    && CanEnter(c, s) && 2 <= c.concurrency && s.workers[1] == held && held.Calling?
    && j <= Needed(c) && s.counts.ingested <= j + 2
    && s.control.breaker == if j < Needed(c) then Breaker(Closed, AllFailed(j), 0.0, false)
                            else Breaker(Open, AllFailed(j), s.now, false)
  }

  /** Worker 0 has no item, or has one at the gate and may go on with it. */
  predicate Resting(s: State, j: nat) {
    && s.workers != [] && s.counts.ingested <= j + 1
    && (s.workers[0].Idle? || (s.workers[0].Gate? && s.workers[0].wake <= s.now))
  }

  lemma FailedRecord(c: Config, j: nat, now: real)
    requires ValidConfig(c) && c.breaker.threshold < 1.0 && j < Needed(c)
    ensures Record(c.breaker, Breaker(Closed, AllFailed(j), 0.0, false), true, now)
      == if j + 1 < Needed(c) then Breaker(Closed, AllFailed(j + 1), 0.0, false)
         else Breaker(Open, AllFailed(j + 1), now, false)
  {
    hide Failures, AllFailed;
    AllFailedCounts(j);
    AllFailedCounts(j + 1);
    assert (j + 1) as real / (j + 1) as real == 1.0;
  }

  lemma HoldOneCall(c: Config) returns (es: seq<Event>, held: Stage)
    requires Smooth(c) && c.concurrency >= 2 && AllPrompts(c.rows, 1)
    ensures Feasible(c, Init(c), es)
    ensures Failing(c, Exec(c, Init(c), es), 0, held) && Resting(Exec(c, Init(c), es), 0)
  {
    hide Exec, Feasible, TryTake, IdleWorkers;
    var s := Init(c);
    AllIdle(s.workers);
    var t := s.now + 1.0 / s.control.bucket.rate;
    SoonGranted(s.control.bucket, s.now);
    TryTakeValid(s.control.bucket, t);
    TakenAt(s.control.bucket, t);
    StartCall(c, s, 1, t);
    es, held := StartEvents(s, 1, t), Started(s, 1, t).workers[1];
  }

  /** Worker 0 starts its next call: for a new row, or again for the one it has. */
  lemma CallAgain(c: Config, es: seq<Event>, j: nat, held: Stage) returns (es': seq<Event>)
    requires Smooth(c) && Feasible(c, Init(c), es) && j < Needed(c) && AllPrompts(c.rows, j + 2)
    requires Failing(c, Exec(c, Init(c), es), j, held) && Resting(Exec(c, Init(c), es), j)
    ensures Feasible(c, Init(c), es + es') && Failing(c, Exec(c, Init(c), es + es'), j, held)
    ensures Exec(c, Init(c), es + es').workers[0].Calling?
  {
    hide Exec, Feasible, TryTake, AllFailed, Bump;
    var s := Exec(c, Init(c), es);
    var t := s.now + 1.0 / s.control.bucket.rate;
    SoonGranted(s.control.bucket, s.now);
    TryTakeValid(s.control.bucket, t);
    TakenAt(s.control.bucket, t);
    if s.workers[0].Idle? {
      StartCall(c, s, 0, t);
      es' := StartEvents(s, 0, t);
      ExecAppend(c, Init(c), es, es');
    } else {
      ExecNext(c, Init(c), es, Pass(0, s.now));
      ExecNext(c, Init(c), es + [Pass(0, s.now)], Token(0, t));
      es' := [Pass(0, s.now), Token(0, t)];
      assert es + [Pass(0, s.now)] + [Token(0, t)] == es + es';
    }
  }

  lemma FailCall(c: Config, es: seq<Event>, j: nat, held: Stage) returns (e: Event)
    requires Smooth(c) && c.breaker.threshold < 1.0 && Feasible(c, Init(c), es) && j < Needed(c)
    requires Failing(c, Exec(c, Init(c), es), j, held) && Exec(c, Init(c), es).workers[0].Calling?
    ensures Feasible(c, Init(c), es + [e])
    ensures Failing(c, Exec(c, Init(c), es + [e]), j + 1, held) && Resting(Exec(c, Init(c), es + [e]), j + 1)
  {
    hide Exec, Feasible, Record, Bump, BackoffCeiling, AllFailed, BudgetLimit;
    var s := Exec(c, Init(c), es);
    e := Answer(0, s.now, TransportError, 0.0, 0.0);
    FailedRecord(c, j, s.now);
    ExecNext(c, Init(c), es, e);
  }

  lemma {:induction false} FailCalls(c: Config, es: seq<Event>, j: nat, held: Stage) returns (es': seq<Event>)
    requires Smooth(c) && c.breaker.threshold < 1.0 && Feasible(c, Init(c), es)
    requires j <= Needed(c) && AllPrompts(c.rows, j + 1)
    requires Failing(c, Exec(c, Init(c), es), 0, held) && Resting(Exec(c, Init(c), es), 0)
    ensures Feasible(c, Init(c), es + es')
    ensures Failing(c, Exec(c, Init(c), es + es'), j, held) && Resting(Exec(c, Init(c), es + es'), j)
    decreases j
  {
    hide Exec, Feasible, Failing, Resting;
    if j == 0 {
      es' := [];
      assert es + es' == es;
    } else {
      es' := FailCalls(c, es, j - 1, held);
      var call := CallAgain(c, es + es', j - 1, held);
      var e := FailCall(c, es + es' + call, j - 1, held);
      assert es + es' + call + [e] == es + (es' + call + [e]);
      es' := es' + call + [e];
    }
  }

  /** After the breaker has opened, worker 0 comes to the gate when the cooldown is over. */
  lemma Probe(c: Config, es: seq<Event>, held: Stage) returns (es': seq<Event>)
    requires Smooth(c) && Feasible(c, Init(c), es) && AllPrompts(c.rows, Needed(c) + 2)
    requires Failing(c, Exec(c, Init(c), es), Needed(c), held) && Resting(Exec(c, Init(c), es), Needed(c))
    ensures Feasible(c, Init(c), es + es')
    ensures var s := Exec(c, Init(c), es + es');
      && s.control.breaker.state == HalfOpen && s.prober == 0
      && 2 <= |s.workers| && s.workers[1] == held
  {
    hide Exec, Feasible, AllFailed, Bump, ValidBucket;
    var s := Exec(c, Init(c), es);
    es' := [];
    assert es + es' == es;
    if s.workers[0].Idle? {
      EnterPrompt(c, s, 0);
      es' := EnterEvents(s, 0);
      ExecAppend(c, Init(c), es, es');
    }
    var at := Pass(0, s.now + c.breaker.cooldown);
    ExecNext(c, Init(c), es + es', at);
    assert es + es' + [at] == es + (es' + [at]);
    es' := es' + [at];
  }

  lemma SizeStays(c: Config, es: seq<Event>)
    requires ValidConfig(c) && Feasible(c, Init(c), es)
    ensures |Exec(c, Init(c), es).workers| == c.concurrency
  {
    JobRuns.InitInv(c);
    JobRuns.RunInv(c, Init(c), es);
    JobRuns.InvSound(c, Exec(c, Init(c), es));
  }

  /** The late answer. Every job with two workers, prompts enough and a breaker that can open has a
      run `early` to a state with the breaker closed and a call of worker e.w out, and a
      continuation `late` to a state with the breaker half-open and that call still out, in which
      the answer e to it, by a worker other than the prober, closes the breaker. */
  lemma LateAnswerCloses(c: Config) returns (early: seq<Event>, late: seq<Event>, e: Event)
    requires Smooth(c) && c.breaker.threshold < 1.0
    requires c.concurrency >= 2 && AllPrompts(c.rows, Needed(c) + 2)
    ensures Feasible(c, Init(c), early) && Feasible(c, Init(c), early + late)
    ensures var s, s' := Exec(c, Init(c), early), Exec(c, Init(c), early + late);
      && e.Answer? && e.w < |s.workers| == |s'.workers|
      && s.control.breaker.state == Closed && s'.control.breaker.state == HalfOpen
      && s.workers[e.w].Calling? && s'.workers[e.w] == s.workers[e.w]
      && Enabled(c, s', e) && e.w != s'.prober && Step(c, s', e).control.breaker.state == Closed
  {
    hide Exec, Feasible, BackoffCeiling, AllFailed, OnSuccess, SpendGuardTrips, LastN, CanEnter, Resting;
    var held: Stage;
    early, held := HoldOneCall(c);
    var fails := FailCalls(c, early, Needed(c), held);
    var probe := Probe(c, early + fails, held);
    assert early + fails + probe == early + (fails + probe);
    late := fails + probe;
    var s' := Exec(c, Init(c), early + late);
    e := Answer(1, s'.now, Response(200, false, 0, 0, 0.0), 0.0, 0.0);
    SizeStays(c, early);
    SizeStays(c, early + late);
  }
}
