// A whole job, seen by its circuit breaker: the breaker of any run is that of a run of requests and
// outcomes, so that what is proved of those holds of every job.

module JobBreaker {
  import opened Models
  import opened Retry
  import opened RateLimit
  import opened Job
  import opened JobAttempts

  /** What the breaker holds against an upstream: no response, a malformed one, or a status that
      blames neither the request nor the pace. */
  predicate CountsAgainst(reply: Reply) {
    || reply.TransportError?
    || (reply.status == 200 && reply.malformed)
    || (reply.status != 200 && reply.status !in {400, 413, 422, 429})
  }

  lemma FailureMeans(reply: Reply)
    ensures BreakerFailure(Classify(reply).kind) <==> CountsAgainst(reply)
  {
  }

  /** What a step tells or asks the breaker. */
  function AsBreakerEvent(s: State, e: Event): Option<BreakerEvent> {
    match e
    case Pass(_, at) => if s.flags.cancelled || s.flags.aborted then None else Some(Asked(at))
    case Answer(_, at, reply, _, _) => Some(Recorded(CountsAgainst(reply), at))
    case _ => None
  }

  function BreakerTrace(c: Config, es: seq<Event>): seq<BreakerEvent>
    requires Feasible(c, Init(c), es)
  {
    if es == [] then []
    else
      match AsBreakerEvent(Exec(c, Init(c), Front(es)), Last(es))
      case None => BreakerTrace(c, Front(es))
      case Some(x) => BreakerTrace(c, Front(es)) + [x]
  }

  lemma StepBreaks(c: Config, s: State, e: Event)
    requires Enabled(c, s, e)
    ensures Step(c, s, e).control.breaker ==
      match AsBreakerEvent(s, e)
      case None => s.control.breaker
      case Some(x) => StepBreaker(c.breaker, s.control.breaker, x)
  {
    hide Bump, BudgetLimit, Allow, TryTake, Record, SetRate, SpendGuardTrips, DecreaseDue, Classify, DelayOk, OnAnswer;
    hide CountsAgainst;
    if e.Answer? {
      FailureMeans(e.reply);
      AnswerControl(c, s.(now := e.at), e.w, e.reply, e.pause, e.delay);
    }
  }

  lemma {:induction false} BreakerMatches(c: Config, es: seq<Event>)
    requires Feasible(c, Init(c), es)
    ensures Exec(c, Init(c), es).control.breaker == RunBreaker(c.breaker, BreakerTrace(c, es))
  {
    if es == [] {
    } else {
      hide Step, StepBreaker, AsBreakerEvent;
      var p, trace := Exec(c, Init(c), Front(es)), BreakerTrace(c, Front(es));
      BreakerMatches(c, Front(es));
      StepBreaks(c, p, Last(es));
      var x := AsBreakerEvent(p, Last(es));
      if x.Some? { assert Front(trace + [x.value]) == trace && Last(trace + [x.value]) == x.value; }
    }
  }

  lemma NextBreaker(cfg: BreakerConfig, es: seq<BreakerEvent>, e: BreakerEvent)
    ensures RunBreaker(cfg, es + [e]) == StepBreaker(cfg, RunBreaker(cfg, es), e)
  {
    hide StepBreaker;
    assert Front(es + [e]) == es && Last(es + [e]) == e;
  }

  /** When exactly a job's breaker opens. From closed, a step opens it if and only if it is an answer
      with which the last `window` outcomes since it closed are at least min(window, 10) and the
      answers held against the upstream are more than the threshold's share of them. */
  lemma JobOpensExactly(c: Config, es: seq<Event>, e: Event)
    requires ValidConfig(c) && Feasible(c, Init(c), es) && Enabled(c, Exec(c, Init(c), es), e)
    requires Exec(c, Init(c), es).control.breaker.state == Closed
    ensures var s' := Step(c, Exec(c, Init(c), es), e).control.breaker.state;
      && (s' == Open || s' == Closed)
      && (s' == Open <==>
            && e.Answer?
            && var before := SinceClosing(c.breaker, BreakerTrace(c, es));
               var w := LastN(before + [CountsAgainst(e.reply)], c.breaker.window);
               && |w| >= Min(c.breaker.window, 10)
               && |set i | 0 <= i < |w| && w[i]| as real > c.breaker.threshold * |w| as real)
  {
    hide Exec, Feasible, Enabled, Step, CountsAgainst, BreakerTrace, SinceClosing, RunBreaker, LastN;
    var s := Exec(c, Init(c), es);
    BreakerMatches(c, es);
    StepBreaks(c, s, e);
    if e.Answer? {
      OpensExactly(c.breaker, BreakerTrace(c, es), CountsAgainst(e.reply), e.at);
      NextBreaker(c.breaker, BreakerTrace(c, es), Recorded(CountsAgainst(e.reply), e.at));
    }
  }
}
