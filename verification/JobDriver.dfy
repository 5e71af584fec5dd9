// Building runs of a job, for the results that say what a job can do: one item after another is
// taken in, let through the gate, given its token, and answered.

module JobDriver {
  import opened Models
  import opened Retry
  import opened RateLimit
  import opened Job

  // ---------------------------------------------------------------- putting runs together

  lemma ExecNext(c: Config, s: State, es: seq<Event>, e: Event)
    requires Feasible(c, s, es) && Enabled(c, Exec(c, s, es), e)
    ensures Feasible(c, s, es + [e]) && Exec(c, s, es + [e]) == Step(c, Exec(c, s, es), e)
  {
    hide Step, Enabled;
    assert Front(es + [e]) == es && Last(es + [e]) == e;
  }

  lemma {:induction false} ExecAppend(c: Config, s: State, a: seq<Event>, b: seq<Event>)
    requires Feasible(c, s, a) && Feasible(c, Exec(c, s, a), b)
    ensures Feasible(c, s, a + b) && Exec(c, s, a + b) == Exec(c, Exec(c, s, a), b)
    decreases |b|
  {
    hide Step, Enabled;
    if b == [] {
      assert a + b == a;
    } else {
      assert Front(a + b) == a + Front(b) && Last(a + b) == Last(b);
      ExecAppend(c, s, a, Front(b));
    }
  }

  predicate RepliesAmong(es: seq<Event>, a: Reply, b: Reply) {
    forall i :: 0 <= i < |es| && es[i].Answer? ==> es[i].reply == a || es[i].reply == b
  }

  predicate AllPrompts(rows: seq<Row>, n: nat) {
    n <= |rows| && forall i :: 0 <= i < n ==> rows[i] == Prompt
  }

  // ---------------------------------------------------------------- one item

  /** A job without an item cap whose breaker does not open while nothing fails. */
  predicate Smooth(c: Config) {
    ValidConfig(c) && c.maxItems.None? && 0.0 <= c.breaker.threshold
  }

  predicate NoFailures(b: Breaker) { b.state == Closed && Failures(b.outcomes) == 0 }

  /** The next row can be taken in and handed to any idle worker. */
  predicate CanEnter(c: Config, s: State) {
    && s.ingest.Reading? && s.queue == [] && !s.flags.cancelled && !s.flags.aborted
    && s.next == s.counts.ingested && |s.workers| == c.concurrency
    && ValidBucket(s.control.bucket) && s.control.bucket.last <= s.now
  }

  /** It can be served at once, and a success will not open the breaker. */
  predicate Ready(c: Config, s: State) { CanEnter(c, s) && NoFailures(s.control.breaker) }

  predicate NextIs(c: Config, s: State, row: Row) { s.next < |c.rows| && c.rows[s.next] == row }

  /** The state once the next row is counted and in the hands of worker w, at stage st. */
  function Entered(s: State, w: nat, st: Stage): State
    requires w < |s.workers|
  {
    s.(next := s.next + 1, workers := s.workers[w := st],
       counts := s.counts.(ingested := s.counts.ingested + 1, pending := s.counts.pending + 1),
       budget := s.budget.(total := s.counts.ingested + 1))
  }

  function EnterEvents(s: State, w: nat): seq<Event> { [Pull(s.now), Put(s.now), Get(w, s.now)] }

  lemma Three(c: Config, s: State, a: Event, b: Event, d: Event)
    requires Enabled(c, s, a) && Enabled(c, Step(c, s, a), b) && Enabled(c, Step(c, Step(c, s, a), b), d)
    ensures Feasible(c, s, [a, b, d]) && Exec(c, s, [a, b, d]) == Step(c, Step(c, Step(c, s, a), b), d)
  {
    hide Step, Enabled;
    assert [] + [a] == [a] && [a] + [b] == [a, b] && [a, b] + [d] == [a, b, d];
    ExecNext(c, s, [], a);
    ExecNext(c, s, [a], b);
    ExecNext(c, s, [a, b], d);
  }

  lemma EnterPrompt(c: Config, s: State, w: nat)
    requires Smooth(c) && CanEnter(c, s) && NextIs(c, s, Prompt) && w < |s.workers| && s.workers[w].Idle?
    ensures Feasible(c, s, EnterEvents(s, w))
    ensures Exec(c, s, EnterEvents(s, w)) == Entered(s, w, Gate(NewTask(s.counts.ingested), s.now))
  {
    var s1 := Step(c, s, Pull(s.now));
    var s2 := Step(c, s1, Put(s.now));
    assert s2.queue == [Item(s.counts.ingested)] && s2.queue[1..] == [];
    Three(c, s, Pull(s.now), Put(s.now), Get(w, s.now));
    hide Exec, Feasible;
  }

  /** A malformed row: its error row is written as soon as a worker gets it. */
  lemma RejectRow(c: Config, s: State, w: nat)
    requires Smooth(c) && Ready(c, s) && NextIs(c, s, Malformed) && w < |s.workers| && s.workers[w].Idle?
    ensures Feasible(c, s, EnterEvents(s, w))
    ensures var s', idx := Exec(c, s, EnterEvents(s, w)), s.counts.ingested;
      && Ready(c, s') && s'.workers == s.workers && s'.next == s.next + 1 && s'.starts == s.starts
      && s'.counts == s.counts.(ingested := idx + 1, failed := s.counts.failed + 1)
      && s'.books.inputTokens == s.books.inputTokens && s'.books.outputTokens == s.books.outputTokens
  {
    hide Bump;
    var s1 := Step(c, s, Pull(s.now));
    var s2 := Step(c, s1, Put(s.now));
    assert s2.queue == [Broken(s.counts.ingested)] && s2.queue[1..] == [];
    Three(c, s, Pull(s.now), Put(s.now), Get(w, s.now));
    hide Exec, Feasible;
  }

  /** The state once worker w has started the call for the next row, at time t. */
  function Started(s: State, w: nat, t: real): State
    requires w < |s.workers|
  {
    var s' := Entered(s, w, Calling(Task(s.counts.ingested, 1, [], 0.0)));
    s'.(now := t, counts := s'.counts.(inFlight := s.counts.inFlight + 1),
        control := s.control.(bucket := TryTake(s.control.bucket, t).0), starts := s.starts + [t])
  }

  function StartEvents(s: State, w: nat, t: real): seq<Event> {
    EnterEvents(s, w) + [Pass(w, s.now), Token(w, t)]
  }

  /** A prompt is taken in and its call is started, at any time at which the bucket grants. */
  lemma StartCall(c: Config, s: State, w: nat, t: real)
    requires Smooth(c) && CanEnter(c, s) && NextIs(c, s, Prompt) && w < |s.workers| && s.workers[w].Idle?
    requires s.control.breaker.state == Closed && s.now <= t && TryTake(s.control.bucket, t).1.Granted?
    ensures Feasible(c, s, StartEvents(s, w, t)) && Exec(c, s, StartEvents(s, w, t)) == Started(s, w, t)
  {
    hide TryTake;
    var es, idx := EnterEvents(s, w), s.counts.ingested;
    EnterPrompt(c, s, w);
    hide Feasible, Exec;
    var s1 := Entered(s, w, Gate(NewTask(idx), s.now));
    var s2 := Entered(s, w, Acquire(Task(idx, 1, [], 0.0), s.now));
    assert Step(c, s1, Pass(w, s.now)) == s2;
    assert Step(c, s2, Token(w, t)) == Started(s, w, t);
    hide Step;
    ExecNext(c, s, es, Pass(w, s.now));
    ExecNext(c, s, es + [Pass(w, s.now)], Token(w, t));
    assert es + [Pass(w, s.now)] + [Token(w, t)] == StartEvents(s, w, t);
  }

  predicate IsSuccess(reply: Reply) { Classify(reply).kind == Success }

  function AnswerNow(s: State, w: nat, reply: Reply): Event { Answer(w, s.now, reply, 0.0, 0.0) }

  lemma {:induction false} NoFailuresAppended(outcomes: seq<bool>)
    requires Failures(outcomes) == 0
    ensures Failures(outcomes + [false]) == 0
  {
    if outcomes == [] {
      assert (outcomes + [false])[1..] == [];
    } else {
      assert (outcomes + [false])[1..] == outcomes[1..] + [false];
      NoFailuresAppended(outcomes[1..]);
    }
  }

  lemma {:induction false} NoFailuresLast(outcomes: seq<bool>, n: nat)
    requires Failures(outcomes) == 0
    ensures Failures(LastN(outcomes, n)) == 0
    decreases |outcomes|
  {
    if |outcomes| <= n {
    } else {
      NoFailuresLast(outcomes[1..], n);
      assert LastN(outcomes, n) == LastN(outcomes[1..], n);
    }
  }

  lemma NoFailuresNoTrip(cfg: BreakerConfig, outcomes: seq<bool>)
    requires Failures(outcomes) == 0 && 0.0 <= cfg.threshold
    ensures !Trips(cfg, outcomes)
  {
    hide Failures;
    if outcomes != [] { assert 0.0 / |outcomes| as real == 0.0; }
  }

  lemma StillNoFailures(cfg: BreakerConfig, b: Breaker, now: real)
    requires NoFailures(b) && 0.0 <= cfg.threshold && 1 <= cfg.window
    ensures NoFailures(Record(cfg, b, false, now))
  {
    hide Failures, LastN, Trips;
    NoFailuresAppended(b.outcomes);
    NoFailuresLast(b.outcomes + [false], cfg.window);
    NoFailuresNoTrip(cfg, LastN(b.outcomes + [false], cfg.window));
  }

  lemma TunedValid(c: Config, k: Controller, b: Bucket, now: real)
    requires ValidBucket(b) && b.last <= now
    ensures var t := OnSuccess(c.controller, k, b, now);
      ValidBucket(t.bucket) && t.bucket.last <= now && t.bucket.capacity == b.capacity
  {
    RefillValid(b, now);
  }

  /** A call that is out is answered with success. Only the abort flag is left to the guard. */
  lemma SucceedCall(c: Config, s: State, w: nat, reply: Reply)
    requires Smooth(c) && w < |s.workers| && s.workers[w].Calling? && IsSuccess(reply)
    requires ValidBucket(s.control.bucket) && s.control.bucket.last <= s.now && NoFailures(s.control.breaker)
    ensures Enabled(c, s, AnswerNow(s, w, reply))
    ensures var s' := Step(c, s, AnswerNow(s, w, reply));
      && s'.ingest == s.ingest && s'.queue == s.queue && s'.next == s.next && s'.now == s.now
      && s'.starts == s.starts && s'.workers == s.workers[w := Idle] && s'.flags.cancelled == s.flags.cancelled
      && s'.flags.aborted == (s.flags.aborted || SpendGuardTrips(c, s'.counts, s'.books))
      && s'.counts.ingested == s.counts.ingested && s'.counts.succeeded == s.counts.succeeded + 1
      && s'.counts.failed == s.counts.failed && reply.Response?
      && s'.books.inputTokens == s.books.inputTokens + reply.inputTokens
      && s'.books.outputTokens == s.books.outputTokens + reply.outputTokens
      && Tuned(s'.control.controller, s'.control.bucket)
         == OnSuccess(c.controller, s.control.controller, s.control.bucket, s.now)
      && ValidBucket(s'.control.bucket) && s'.control.bucket.last <= s'.now && NoFailures(s'.control.breaker)
  {
    hide SpendGuardTrips, OnSuccess, Classify, NoFailures, ValidBucket, Record, BackoffCeiling;
    StillNoFailures(c.breaker, s.control.breaker, s.now);
    TunedValid(c, s.control.controller, s.control.bucket, s.now);
  }

  /** A moment at which a bucket surely grants. */
  lemma SoonGranted(b: Bucket, now: real)
    requires ValidBucket(b) && b.last <= now
    ensures 0.0 <= 1.0 / b.rate && TryTake(b, now + 1.0 / b.rate).1.Granted?
    ensures TryTake(b, now + 1.0 / b.rate).0.rate == b.rate
  {
    hide Mul;
    MulDiv(1.0, b.rate);
    MulUnits(b.rate);
    if 1.0 / b.rate < 0.0 { MulStrict(1.0 / b.rate, 0.0, b.rate); }
    MulMono(1.0 / b.rate, now + 1.0 / b.rate - b.last, b.rate);
  }

  lemma TakenAt(b: Bucket, t: real)
    ensures TryTake(b, t).0.last == t
  {
  }

  /** One prompt from its row to its answer, by worker w. */
  lemma ServeRow(c: Config, s: State, w: nat, reply: Reply) returns (es: seq<Event>)
    requires Smooth(c) && Ready(c, s) && NextIs(c, s, Prompt) && w < |s.workers| && s.workers[w].Idle?
    requires IsSuccess(reply)
    ensures Feasible(c, s, es) && RepliesAmong(es, reply, reply) && reply.Response?
    ensures var s' := Exec(c, s, es);
      && (!s'.flags.aborted ==> Ready(c, s')) && s'.workers == s.workers && s'.next == s.next + 1
      && s'.flags.aborted == SpendGuardTrips(c, s'.counts, s'.books)
      && s'.counts.ingested == s.counts.ingested + 1 && s'.counts.succeeded == s.counts.succeeded + 1
      && s'.counts.failed == s.counts.failed
      && s'.books.inputTokens == s.books.inputTokens + reply.inputTokens
      && s'.books.outputTokens == s.books.outputTokens + reply.outputTokens
      && Tuned(s'.control.controller, s'.control.bucket)
         == OnSuccess(c.controller, s.control.controller, TryTake(s.control.bucket, s'.now).0, s'.now)
      && TryTake(s.control.bucket, s'.now).0.rate == s.control.bucket.rate
  {
    hide SpendGuardTrips, OnSuccess, Classify, Step, Exec, Feasible, TryTake, Failures;
    var t := s.now + 1.0 / s.control.bucket.rate;
    SoonGranted(s.control.bucket, s.now);
    TryTakeValid(s.control.bucket, t);
    TakenAt(s.control.bucket, t);
    StartCall(c, s, w, t);
    var s1, e := Started(s, w, t), AnswerNow(Started(s, w, t), w, reply);
    SucceedCall(c, s1, w, reply);
    ExecNext(c, s, StartEvents(s, w, t), e);
    es := StartEvents(s, w, t) + [e];
    assert s1.workers[w := Idle] == s.workers;
  }
}
