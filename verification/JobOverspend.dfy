// What a job can spend: runs that come as near to the overshoot bound as one likes, and runs
// that spend without limit because every check of the guard falls on an error row.

module JobOverspend {
  import opened Models
  import opened Retry
  import opened RateLimit
  import opened Job
  import opened JobLedger
  import opened JobRuns
  import opened JobSpend
  import opened JobDriver

  function ReplyPrice(c: Config, reply: Reply): real
    requires reply.Response?
  {
    Cost(c, reply.inputTokens, reply.outputTokens)
  }

  /** A job that has served its rows so far one by one, and may go on. */
  ghost predicate Served(c: Config, s: State, succeeded: nat, failed: nat, spent: real) {
    && Ready(c, s) && (forall w :: 0 <= w < |s.workers| ==> s.workers[w] == Idle)
    && s.counts.succeeded == succeeded && s.counts.failed == failed
    && s.counts.ingested == succeeded + failed && SpentBy(c, s) == spent
  }

  lemma ServedAtFirst(c: Config)
    requires Smooth(c)
    ensures Feasible(c, Init(c), []) && Served(c, Exec(c, Init(c), []), 0, 0, 0.0)
  {
    NothingSpent(c);
    AllIdle(Init(c).workers);
  }

  /** The guard stays quiet between its checks, and at a check of a job below its cap that has
      ingested no more than it has done. */
  lemma GuardQuiet(c: Config, counts: Counts, books: Books)
    requires var done, cost := counts.succeeded + counts.failed, Cost(c, books.inputTokens, books.outputTokens);
      done > 0 && (done % 50 != 0 || (counts.ingested == done && 0.0 <= cost < c.spendCap))
    ensures !SpendGuardTrips(c, counts, books)
  {
    hide Cost, Mul;
    var done, cost := counts.succeeded + counts.failed, Cost(c, books.inputTokens, books.outputTokens);
    if done % 50 == 0 {
      SpendTestsCollapse(c, cost, done, done);
      MulStrict(cost, c.spendCap, done as real);
    }
  }

  lemma ServeNext(c: Config, es: seq<Event>, reply: Reply, succeeded: nat, failed: nat, spent: real)
    returns (es': seq<Event>)
    requires Smooth(c) && Feasible(c, Init(c), es) && Served(c, Exec(c, Init(c), es), succeeded, failed, spent)
    requires succeeded + failed < |c.rows| && c.rows[succeeded + failed].Prompt? && IsSuccess(reply)
    requires (succeeded + failed + 1) % 50 != 0 || 0.0 <= spent + ReplyPrice(c, reply) < c.spendCap
    ensures Feasible(c, Init(c), es + es') && RepliesAmong(es', reply, reply)
    ensures Served(c, Exec(c, Init(c), es + es'), succeeded + 1, failed, spent + ReplyPrice(c, reply))
  {
    hide Exec, Feasible, Cost, SpendGuardTrips, Classify, OnSuccess, TryTake, ValidBucket, NoFailures;
    var s := Exec(c, Init(c), es);
    es' := ServeRow(c, s, 0, reply);
    ExecAppend(c, Init(c), es, es');
    CostAdds(c, s.books.inputTokens, s.books.outputTokens, reply.inputTokens, reply.outputTokens);
    var s' := Exec(c, s, es');
    GuardQuiet(c, s'.counts, s'.books);
  }

  lemma RejectNext(c: Config, es: seq<Event>, succeeded: nat, failed: nat, spent: real) returns (es': seq<Event>)
    requires Smooth(c) && Feasible(c, Init(c), es) && Served(c, Exec(c, Init(c), es), succeeded, failed, spent)
    requires succeeded + failed < |c.rows| && c.rows[succeeded + failed].Malformed?
    ensures Feasible(c, Init(c), es + es') && (forall i :: 0 <= i < |es'| ==> !es'[i].Answer?)
    ensures Served(c, Exec(c, Init(c), es + es'), succeeded, failed + 1, spent)
  {
    hide Exec, Feasible, Cost, ValidBucket, NoFailures;
    var s := Exec(c, Init(c), es);
    es' := EnterEvents(s, 0);
    RejectRow(c, s, 0);
    ExecAppend(c, Init(c), es, es');
  }

  // ---------------------------------------------------------------- without limit

  /** Every 50th row is malformed, and the others are prompts. */
  predicate Every50thBad(rows: seq<Row>) {
    forall i :: 0 <= i < |rows| ==> rows[i] == if (i + 1) % 50 == 0 then Malformed else Prompt
  }

  /** How many of the first n rows are prompts. */
  function Good(n: nat): nat { n - n / 50 }

  lemma NextRow(n: nat)
    requires n > 0
    ensures if n % 50 == 0 then Good(n) == Good(n - 1) && n / 50 == (n - 1) / 50 + 1
            else Good(n) == Good(n - 1) + 1 && n / 50 == (n - 1) / 50
  {
  }

  /** A job with such rows serves them all, however low its cap: after n rows it has paid for all
      but every 50th, and it has not been stopped. */
  lemma {:induction false} NeverStopped(c: Config, n: nat, reply: Reply) returns (es: seq<Event>)
    requires Smooth(c) && Every50thBad(c.rows) && n <= |c.rows| && IsSuccess(reply)
    ensures Feasible(c, Init(c), es) && RepliesAmong(es, reply, reply)
    ensures Served(c, Exec(c, Init(c), es), Good(n), n / 50, Mul(Good(n) as real, ReplyPrice(c, reply)))
    decreases n
  {
    hide Exec, Feasible, Mul, Cost, Served, Classify;
    var p := ReplyPrice(c, reply);
    MulUnits(p);
    if n == 0 {
      es := [];
      ServedAtFirst(c);
    } else {
      NextRow(n);
      var good, bad := Good(n - 1), (n - 1) / 50;
      assert good + bad == n - 1;
      es := NeverStopped(c, n - 1, reply);
      MulAdd(good as real, 1.0, p);
      hide Good;
      var more: seq<Event>;
      if n % 50 == 0 {
        more := RejectNext(c, es, good, bad, Mul(good as real, p));
      } else {
        more := ServeNext(c, es, reply, good, bad, Mul(good as real, p));
      }
      es := es + more;
    }
  }

  /** The job that the program sets up for 60 requests a minute, with these rows, cap and prices. */
  function PlainJob(concurrency: nat, rows: seq<Row>, cap: real, inputPrice: real, outputPrice: real): Config {
    Config(concurrency, rows, None, BreakerConfig(100, 0.5, 30.0, 30.0), JobController(60), JobBucket(60, 0.0),
           0.5, 30.0, cap, inputPrice, outputPrice)
  }

  lemma PlainJobIsSmooth(concurrency: nat, rows: seq<Row>, cap: real, inputPrice: real, outputPrice: real)
    requires concurrency >= 1
    ensures Smooth(PlainJob(concurrency, rows, cap, inputPrice, outputPrice))
  {
  }

  lemma UpTo(total: real, step: real) returns (n: nat)
    requires 0.0 < step
    ensures Mul(n as real, step) >= total
  {
    hide Mul;
    var x := total / step;
    MulDiv(total, step);
    n := if x < 0.0 then 0 else x.Floor + 1;
    MulMono(x, n as real, step);
  }

  lemma PriceOfOne(c: Config, price: real)
    ensures c.outputPrice == 1000000.0 * price ==> Cost(c, 0, 1) == price
    ensures c.inputPrice == 1000000.0 * price ==> Cost(c, 1, 0) == price
  {
  }

  lemma OnlySuchPrices(c: Config, es: seq<Event>, a: Reply, b: Reply, m: real)
    requires RepliesAmong(es, a, b) && a.Response? && b.Response?
    requires 0.0 <= ReplyPrice(c, a) <= m && 0.0 <= ReplyPrice(c, b) <= m
    ensures PricedWithin(c, es, m)
  {
    hide Cost, Classify;
  }

  /** The cap does not hold. For every cap, every price of an answer and every amount, there are a
      job and a run of it with that cap and that price that spends the amount and more over at
      least 50 rows, and is not aborted. */
  lemma SpendingIsUnbounded(concurrency: nat, cap: real, price: real, amount: real)
    returns (c: Config, es: seq<Event>)
    requires concurrency >= 1 && 0.0 < price
    ensures c.concurrency == concurrency && c.spendCap == cap && ValidConfig(c) && Feasible(c, Init(c), es)
    ensures PricedWithin(c, es, price)
    ensures var s := Exec(c, Init(c), es);
      !s.flags.aborted && SpentBy(c, s) >= amount && s.counts.succeeded + s.counts.failed >= 50
  {
    hide Exec, Feasible, Mul;
    var k := UpTo(amount, price);
    var n := 50 * (k + 1);
    var reply := Response(200, false, 0, 1, 0.0);
    var rows := seq(n, i => if (i + 1) % 50 == 0 then Malformed else Prompt);
    c := PlainJob(concurrency, rows, cap, 0.0, 1000000.0 * price);
    PlainJobIsSmooth(concurrency, rows, cap, 0.0, 1000000.0 * price);
    PriceOfOne(c, price);
    es := NeverStopped(c, n, reply);
    OnlySuchPrices(c, es, reply, reply, price);
    assert n / 50 == k + 1;
    MulMono(k as real, Good(n) as real, price);
  }

  // ---------------------------------------------------------------- as near to the bound as one likes

  /** n cheap rows that together stay below the cap. */
  lemma {:induction false} ServeCheap(c: Config, n: nat, cheap: Reply) returns (es: seq<Event>)
    requires Smooth(c) && AllPrompts(c.rows, n) && IsSuccess(cheap)
    requires 0.0 <= ReplyPrice(c, cheap) && (n > 0 ==> Mul(n as real, ReplyPrice(c, cheap)) < c.spendCap)
    ensures Feasible(c, Init(c), es) && RepliesAmong(es, cheap, cheap)
    ensures Served(c, Exec(c, Init(c), es), n, 0, Mul(n as real, ReplyPrice(c, cheap)))
    decreases n
  {
    hide Exec, Feasible, Mul, Cost, Served, Classify;
    var p := ReplyPrice(c, cheap);
    MulUnits(p);
    if n == 0 {
      es := [];
      ServedAtFirst(c);
    } else {
      MulMono(0.0, (n - 1) as real, p);
      MulAdd((n - 1) as real, 1.0, p);
      es := ServeCheap(c, n - 1, cheap);
      var more := ServeNext(c, es, cheap, n - 1, 0, Mul((n - 1) as real, p));
      es := es + more;
    }
  }

  /** Up to 49 dear rows after a check: nobody looks at the cap. */
  lemma {:induction false} ServeDear(c: Config, n: nat, k: nat, cheap: Reply, dear: Reply) returns (es: seq<Event>)
    requires Smooth(c) && AllPrompts(c.rows, n + k) && IsSuccess(cheap) && IsSuccess(dear)
    requires 0.0 <= ReplyPrice(c, cheap) && (n > 0 ==> Mul(n as real, ReplyPrice(c, cheap)) < c.spendCap)
    requires n % 50 == 0 && k <= 49
    ensures Feasible(c, Init(c), es) && RepliesAmong(es, cheap, dear)
    ensures Served(c, Exec(c, Init(c), es), n + k, 0,
                   Mul(n as real, ReplyPrice(c, cheap)) + Mul(k as real, ReplyPrice(c, dear)))
    decreases k
  {
    hide Exec, Feasible, Mul, Cost, Served, Classify;
    var p, m := ReplyPrice(c, cheap), ReplyPrice(c, dear);
    MulUnits(m);
    if k == 0 {
      es := ServeCheap(c, n, cheap);
    } else {
      es := ServeDear(c, n, k - 1, cheap, dear);
      assert (n + k) % 50 != 0;
      var more := ServeNext(c, es, dear, n + (k - 1), 0, Mul(n as real, p) + Mul((k - 1) as real, m));
      MulAdd((k - 1) as real, 1.0, m);
      es := es + more;
    }
  }

  /** Workers lo, ..., hi - 1 are in a call, and those from hi on are idle. */
  ghost predicate InBurst(c: Config, s: State, lo: nat, hi: nat, succeeded: nat, spent: real) {
    && lo <= hi <= c.concurrency == |s.workers|
    && (forall w :: lo <= w < hi ==> s.workers[w].Calling?)
    && (forall w :: hi <= w < |s.workers| ==> s.workers[w].Idle?)
    && s.counts.succeeded == succeeded && s.counts.failed == 0
    && s.counts.ingested == succeeded + (hi - lo) && SpentBy(c, s) == spent
    && ValidBucket(s.control.bucket) && s.control.bucket.last <= s.now && NoFailures(s.control.breaker)
    && (lo == 0 ==> Ready(c, s))
  }

  /** One more worker starts a call. */
  lemma StartNext(c: Config, es: seq<Event>, w: nat, succeeded: nat, spent: real) returns (es': seq<Event>)
    requires Smooth(c) && Feasible(c, Init(c), es) && w < c.concurrency && AllPrompts(c.rows, succeeded + w + 1)
    requires InBurst(c, Exec(c, Init(c), es), 0, w, succeeded, spent)
    ensures Feasible(c, Init(c), es + es') && (forall i :: 0 <= i < |es'| ==> !es'[i].Answer?)
    ensures InBurst(c, Exec(c, Init(c), es + es'), 0, w + 1, succeeded, spent)
  {
    hide Exec, Feasible, Cost, TryTake, Failures;
    var s := Exec(c, Init(c), es);
    var t := s.now + 1.0 / s.control.bucket.rate;
    SoonGranted(s.control.bucket, s.now);
    TryTakeValid(s.control.bucket, t);
    TakenAt(s.control.bucket, t);
    StartCall(c, s, w, t);
    es' := StartEvents(s, w, t);
    ExecAppend(c, Init(c), es, es');
  }

  /** One more worker of the burst is answered, whether the job is aborted by now or not. */
  lemma AnswerNext(c: Config, es: seq<Event>, w: nat, dear: Reply, succeeded: nat, spent: real) returns (e: Event)
    requires Smooth(c) && Feasible(c, Init(c), es) && w < c.concurrency && IsSuccess(dear)
    requires InBurst(c, Exec(c, Init(c), es), w, c.concurrency, succeeded, spent)
    ensures Feasible(c, Init(c), es + [e]) && e.Answer? && e.reply == dear
    ensures InBurst(c, Exec(c, Init(c), es + [e]), w + 1, c.concurrency, succeeded + 1, spent + ReplyPrice(c, dear))
  {
    hide Exec, Feasible, Cost, NoFailures, ValidBucket, SpendGuardTrips, OnSuccess, Step, Classify;
    var s := Exec(c, Init(c), es);
    e := AnswerNow(s, w, dear);
    SucceedCall(c, s, w, dear);
    ExecNext(c, Init(c), es, e);
    CostAdds(c, s.books.inputTokens, s.books.outputTokens, dear.inputTokens, dear.outputTokens);
  }

  lemma {:induction false} StartBurst(c: Config, es: seq<Event>, w: nat, succeeded: nat, spent: real)
    returns (es': seq<Event>)
    requires Smooth(c) && Feasible(c, Init(c), es) && w <= c.concurrency && AllPrompts(c.rows, succeeded + w)
    requires Served(c, Exec(c, Init(c), es), succeeded, 0, spent)
    ensures Feasible(c, Init(c), es + es') && (forall i :: 0 <= i < |es'| ==> !es'[i].Answer?)
    ensures InBurst(c, Exec(c, Init(c), es + es'), 0, w, succeeded, spent)
    decreases w
  {
    hide Exec, Feasible, Cost, NoFailures, ValidBucket;
    if w == 0 {
      es' := [];
      assert es + es' == es;
    } else {
      es' := StartBurst(c, es, w - 1, succeeded, spent);
      var more := StartNext(c, es + es', w - 1, succeeded, spent);
      assert es + es' + more == es + (es' + more);
      es' := es' + more;
    }
  }

  lemma {:induction false} AnswerBurst(c: Config, es: seq<Event>, w: nat, dear: Reply, succeeded: nat, spent: real)
    returns (es': seq<Event>)
    requires Smooth(c) && Feasible(c, Init(c), es) && w <= c.concurrency && IsSuccess(dear)
    requires InBurst(c, Exec(c, Init(c), es), 0, c.concurrency, succeeded, spent)
    ensures Feasible(c, Init(c), es + es') && RepliesAmong(es', dear, dear)
    ensures InBurst(c, Exec(c, Init(c), es + es'), w, c.concurrency, succeeded + w,
                    spent + Mul(w as real, ReplyPrice(c, dear)))
    decreases w
  {
    hide Exec, Feasible, Mul, Cost, InBurst, Classify;
    var m := ReplyPrice(c, dear);
    MulUnits(m);
    if w == 0 {
      es' := [];
      assert es + es' == es;
    } else {
      es' := AnswerBurst(c, es, w - 1, dear, succeeded, spent);
      var e := AnswerNext(c, es + es', w - 1, dear, succeeded + (w - 1), spent + Mul((w - 1) as real, m));
      MulAdd((w - 1) as real, 1.0, m);
      assert es + es' + [e] == es + (es' + [e]);
      es' := es' + [e];
    }
  }

  lemma SoundAnytime(s: State, s0: State)
    requires Sound(s) && s0 == s.(now := s0.now)
    ensures Sound(s0)
  {
  }

  lemma FailuresStay(c: Config, s: State, e: Event)
    requires Sound(s) && Enabled(c, s, e)
    ensures s.counts.failed <= Step(c, s, e).counts.failed
  {
    hide Act, Sound, Subject, BudgetLimit, Bump, RowFits;
    var s0 := s.(now := e.at);
    SoundAnytime(s, s0);
    if ByWorker(e) { ActWorks(c, s0, e); } else { ActFeeds(c, s0, e); }
  }

  lemma {:induction false} CleanIfNoFailure(c: Config, es: seq<Event>)
    requires ValidConfig(c) && Feasible(c, Init(c), es) && Exec(c, Init(c), es).counts.failed == 0
    ensures CleanUntilAbort(c, es)
  {
    if es == [] {
    } else {
      hide Step, Inv, Sound;
      InitInv(c);
      RunInv(c, Init(c), Front(es));
      InvSound(c, Exec(c, Init(c), Front(es)));
      FailuresStay(c, Exec(c, Init(c), Front(es)), Last(es));
      CleanIfNoFailure(c, Front(es));
    }
  }

  /** Cheap rows up to a check, 49 dear rows that nobody checks, and then a burst of one dear row
      per worker: all are paid for. */
  lemma OvershootRun(c: Config, n: nat, cheap: Reply, dear: Reply) returns (es: seq<Event>)
    requires Smooth(c) && AllPrompts(c.rows, n + 49 + c.concurrency) && IsSuccess(cheap) && IsSuccess(dear)
    requires 0.0 <= ReplyPrice(c, cheap) && (n > 0 ==> Mul(n as real, ReplyPrice(c, cheap)) < c.spendCap)
    requires n % 50 == 0
    ensures Feasible(c, Init(c), es) && RepliesAmong(es, cheap, dear) && CleanUntilAbort(c, es)
    ensures SpentBy(c, Exec(c, Init(c), es))
      == Mul(n as real, ReplyPrice(c, cheap)) + Mul((49 + c.concurrency) as real, ReplyPrice(c, dear))
  {
    hide Exec, Feasible, Mul, Cost, Served, Classify, NoFailures, ValidBucket, CleanUntilAbort;
    var p, m := ReplyPrice(c, cheap), ReplyPrice(c, dear);
    var spent := Mul(n as real, p) + Mul(49.0, m);
    es := ServeDear(c, n, 49, cheap, dear);
    var starts := StartBurst(c, es, c.concurrency, n + 49, spent);
    var answers := AnswerBurst(c, es + starts, c.concurrency, dear, n + 49, spent);
    es := es + starts + answers;
    CleanIfNoFailure(c, es);
    MulAdd(49.0, c.concurrency as real, m);
  }

  lemma CheapestBounds(cap: real, m: real, n: nat, price: real)
    requires 0.0 < cap && 0.0 < m && n >= 50 && 0.0 < Mul(n as real, price) < cap
    requires Mul((n / 50 - 1) as real, m) >= cap
    ensures 0.0 <= price <= m
  {
    hide Mul;
    MulUnits(price);
    MulSwap(n as real, price, 1.0);
    MulSwap(n as real, m, 1.0);
    if price < 0.0 {
      MulMono(price, 0.0, n as real);
      MulUnits(n as real);
    }
    MulMono((n / 50 - 1) as real, n as real, m);
    if price > m { MulMono(m, price, n as real); }
  }

  /** The overshoot bound is exact: for every concurrency, cap, dearest answer and margin, there are
      a job and a run of it with no failed item that spends more than the bound less the margin. */
  lemma OvershootIsReached(concurrency: nat, cap: real, m: real, margin: real) returns (c: Config, es: seq<Event>)
    requires concurrency >= 1 && 0.0 < cap && 0.0 < m && 0.0 < margin
    ensures c.concurrency == concurrency && c.spendCap == cap && ValidConfig(c) && Feasible(c, Init(c), es)
    ensures CleanUntilAbort(c, es) && PricedWithin(c, es, m)
    ensures SpentBy(c, Exec(c, Init(c), es)) > cap + Mul((49 + concurrency) as real, m) - margin
  {
    hide Exec, Feasible, Mul, CleanUntilAbort, PricedWithin;
    var r := UpTo(cap, m);
    var n := 50 * (r + 1);
    var cheapest := (cap - MinReal(cap, margin) / 2.0) / n as real;
    MulDiv(cap - MinReal(cap, margin) / 2.0, n as real);
    MulSwap(cheapest, n as real, 1.0);
    CheapestBounds(cap, m, n, cheapest);
    c := PlainJob(concurrency, seq(n + 49 + concurrency, _ => Prompt), cap, 1000000.0 * cheapest, 1000000.0 * m);
    PlainJobIsSmooth(concurrency, c.rows, cap, 1000000.0 * cheapest, 1000000.0 * m);
    PriceOfOne(c, cheapest);
    PriceOfOne(c, m);
    var cheap, dear := Response(200, false, 1, 0, 0.0), Response(200, false, 0, 1, 0.0);
    es := OvershootRun(c, n, cheap, dear);
    OnlySuchPrices(c, es, cheap, dear, m);
  }
}
