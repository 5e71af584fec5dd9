// core/ingest.py, `stream_items`: a parser thread feeds an async generator through a bounded
// queue, with a stop flag, a closing sentinel and a drain. The two sides interleave freely; the
// rows that the parser would produce are the input.

module Bridge {
  import opened Models

  const CAPACITY: nat := 64

  datatype Slot<T> = Row(row: T) | Sentinel

  /** How the generator ended: all rows handed out, the parse error raised, or closed early. */
  datatype Ending = Exhausted | Raised | ClosedEarly

  /** Where the parser thread is: asking for the next row, looking at the stop flag, blocked in
      `put` with a row or with the sentinel, returning from it, or done. */
  datatype Producer<T> = Pulling | Checking(row: T) | Putting(row: T) | Ending | Leaving | Finished

  /** Where the generator is: in `get`, suspended at its `yield`, draining, or gone. */
  datatype Consumer = Getting | Yielding | Draining(early: bool) | Closed(how: Ending)

  datatype State<T> = State(
    pulled: nat, producer: Producer<T>, queue: seq<Slot<T>>, stop: bool, error: bool,
    consumer: Consumer, yielded: seq<T>)

  /** The parse: the rows it yields, and whether it then raises. */
  datatype Parse<T> = Parse(rows: seq<T>, fails: bool)

  function Init<T>(): State<T> { State(0, Pulling, [], false, false, Getting, []) }

  /** Which side moves; `close` is the caller's choice, at a yield, to abandon the generator. */
  datatype Turn = Produce | Consume(close: bool)

  predicate Enabled<T>(s: State<T>, t: Turn) {
    match t
    case Produce =>
      !s.producer.Finished? && (s.producer.Putting? || s.producer.Ending? ==> |s.queue| < CAPACITY)
    case Consume(close) =>
      match s.consumer
      case Getting => !close && |s.queue| > 0
      case Yielding => true
      case Draining(_) => !close
      case Closed(_) => false
  }

  /** A drain that finds the queue empty while the thread still runs only yields the loop. */
  predicate Spins<T>(s: State<T>, t: Turn) {
    t.Consume? && s.consumer.Draining? && |s.queue| == 0 && !s.producer.Finished?
  }

  function ProducerStep<T>(p: Parse<T>, s: State<T>): State<T>
    requires Enabled(s, Produce)
  {
    match s.producer
    case Pulling =>
      if s.pulled < |p.rows| then s.(pulled := s.pulled + 1, producer := Checking(p.rows[s.pulled]))
      else s.(error := s.error || p.fails, producer := Ending)
    case Checking(row) => s.(producer := if s.stop then Ending else Putting(row))
    case Putting(row) => s.(queue := s.queue + [Row(row)], producer := Pulling)
    case Ending => s.(queue := s.queue + [Sentinel], producer := Leaving)
    case Leaving => s.(producer := Finished)
  }

  function ConsumerStep<T>(s: State<T>, close: bool): State<T>
    requires Enabled(s, Consume(close))
  {
    match s.consumer
    case Getting =>
      var s' := s.(queue := s.queue[1..]);
      if s.queue[0].Sentinel? then s'.(stop := true, consumer := Draining(false))
      else s'.(yielded := s.yielded + [s.queue[0].row], consumer := Yielding)
    case Yielding => if close then s.(stop := true, consumer := Draining(true)) else s.(consumer := Getting)
    case Draining(early) =>
      if s.producer.Finished? then
        s.(consumer := Closed(if early then ClosedEarly else if s.error then Raised else Exhausted))
      else if |s.queue| > 0 then s.(queue := s.queue[1..])
      else s
  }

  function Step<T>(p: Parse<T>, s: State<T>, t: Turn): State<T>
    requires Enabled(s, t)
  {
    match t
    case Produce => ProducerStep(p, s)
    case Consume(close) => ConsumerStep(s, close)
  }

  predicate Feasible<T>(p: Parse<T>, s: State<T>, ts: seq<Turn>)
    decreases |ts|, 0
  {
    |ts| > 0 ==> Feasible(p, s, Front(ts)) && Enabled(Exec(p, s, Front(ts)), Last(ts))
  }

  function Exec<T>(p: Parse<T>, s: State<T>, ts: seq<Turn>): State<T>
    requires Feasible(p, s, ts)
    decreases |ts|, 1
  {
    if |ts| == 0 then s else Step(p, Exec(p, s, Front(ts)), Last(ts))
  }

  // ---------------------------------------------------------------- in place

  /** The variables of `stream_items`, shared by its two loops. */
  class StreamItems<T> {
    const parse: Parse<T>
    var pulled: nat
    var producer: Producer<T>
    var queue: seq<Slot<T>>
    var stop: bool
    var error: bool
    var consumer: Consumer
    var yielded: seq<T>

    ghost function View(): State<T>
      reads this
    {
      State(pulled, producer, queue, stop, error, consumer, yielded)
    }

    constructor (parse: Parse<T>)
      ensures this.parse == parse && View() == Init()
    {
      this.parse := parse;
      pulled, producer, queue, stop, error, consumer, yielded := 0, Pulling, [], false, false, Getting, [];
    }

    /** The thread runs to its next look at something it shares with the loop. */
    method RunProducer()
      requires Enabled(View(), Produce)
      modifies this`pulled, this`producer, this`queue, this`error
      ensures View() == ProducerStep(parse, old(View()))
    {
      match producer
      case Pulling =>
        if pulled < |parse.rows| {
          producer := Checking(parse.rows[pulled]);
          pulled := pulled + 1;
        } else {
          if parse.fails { error := true; }
          producer := Ending;
        }
      case Checking(row) =>
        if stop { producer := Ending; } else { producer := Putting(row); }
      case Putting(row) =>
        queue := queue + [Row(row)];
        producer := Pulling;
      case Ending =>
        queue := queue + [Sentinel];
        producer := Leaving;
      case Leaving => producer := Finished;
    }

    /** The generator runs to its next suspension. */
    method RunConsumer(close: bool)
      requires Enabled(View(), Consume(close))
      modifies this`queue, this`stop, this`consumer, this`yielded
      ensures View() == ConsumerStep(old(View()), close)
    {
      match consumer
      case Getting =>
        var slot := queue[0];
        queue := queue[1..];
        if slot.Sentinel? {
          stop, consumer := true, Draining(false);
        } else {
          yielded, consumer := yielded + [slot.row], Yielding;
        }
      case Yielding =>
        if close { stop, consumer := true, Draining(true); } else { consumer := Getting; }
      case Draining(early) =>
        if producer.Finished? {
          consumer := Closed(if early then ClosedEarly else if error then Raised else Exhausted);
        } else if |queue| > 0 {
          queue := queue[1..];
        }
    }
  }

  // ---------------------------------------------------------------- the invariant

  /** The rows among the queue's slots, in order. */
  function RowsIn<T>(q: seq<Slot<T>>): seq<T> {
    if |q| == 0 then []
    else if Last(q).Row? then RowsIn(Front(q)) + [Last(q).row] else RowsIn(Front(q))
  }

  function HeldBy<T>(p: Producer<T>): seq<T> {
    if p.Checking? || p.Putting? then [p.row] else []
  }

  predicate Ended<T>(p: Producer<T>) { p.Ending? || p.Leaving? || p.Finished? }

  /** Only rows, but for one sentinel behind them once the thread has put it. */
  predicate Ordered<T>(s: State<T>) {
    && |s.queue| <= CAPACITY
    && (forall i :: 0 <= i < |s.queue| && s.queue[i].Sentinel? ==>
          i == |s.queue| - 1 && (s.producer.Leaving? || s.producer.Finished?))
  }

  /** Rows pulled beyond those handed out: the queue, and one or two in the thread's hands. */
  function Ahead<T>(s: State<T>): nat {
    if s.stop && (s.producer.Pulling? || s.producer.Putting?) then 65 else 66
  }

  ghost predicate Inv<T>(p: Parse<T>, s: State<T>) {
    && Ordered(s)
    && s.pulled <= |p.rows|
    && s.stop == (s.consumer.Draining? || s.consumer.Closed?)
    && (s.consumer.Closed? ==> s.producer.Finished?)
    && s.yielded <= p.rows && |s.yielded| <= s.pulled
    && (s.error ==> Ended(s.producer) && p.fails)
    && (!s.stop ==>
         && s.yielded + RowsIn(s.queue) + HeldBy(s.producer) == p.rows[..s.pulled]
         && (Ended(s.producer) ==> s.pulled == |p.rows| && s.error == p.fails)
         && (s.producer.Leaving? || s.producer.Finished? ==> |s.queue| > 0 && Last(s.queue).Sentinel?))
    && (s.stop ==> s.pulled <= |s.yielded| + Ahead(s))
    && (s.consumer.Draining? && !s.consumer.early ==> s.yielded == p.rows && s.error == p.fails && Ended(s.producer))
    && (s.consumer.Closed? && s.consumer.how != ClosedEarly ==>
          s.yielded == p.rows && s.consumer.how == if p.fails then Raised else Exhausted)
  }

  lemma {:induction false} RowsInLength<T>(q: seq<Slot<T>>)
    ensures |RowsIn(q)| <= |q|
  {
    if |q| == 0 {
    } else {
      RowsInLength(Front(q));
    }
  }

  lemma RowsInAppend<T>(q: seq<Slot<T>>, x: Slot<T>)
    ensures RowsIn(q + [x]) == if x.Row? then RowsIn(q) + [x.row] else RowsIn(q)
  {
    assert Front(q + [x]) == q;
  }

  lemma {:induction false} RowsInHead<T>(q: seq<Slot<T>>)
    requires |q| > 0
    ensures RowsIn(q) == (if q[0].Row? then [q[0].row] else []) + RowsIn(q[1..])
  {
    if |q| == 1 {
    } else {
      RowsInHead(Front(q));
      assert Front(q)[1..] == Front(q[1..]);
      assert Last(q[1..]) == Last(q) && Front(q)[0] == q[0];
    }
  }

  /** Before the stop flag is up, the thread is at most 65 rows ahead. */
  lemma AheadBeforeStop<T>(p: Parse<T>, s: State<T>)
    requires Inv(p, s) && !s.stop
    ensures s.pulled <= |s.yielded| + CAPACITY + |HeldBy(s.producer)|
  {
    RowsInLength(s.queue);
    assert |s.yielded + RowsIn(s.queue) + HeldBy(s.producer)| == s.pulled;
  }

  lemma ProducerKeeps<T>(p: Parse<T>, s: State<T>)
    requires Inv(p, s) && Enabled(s, Produce)
    ensures Inv(p, ProducerStep(p, s))
  {
    hide RowsIn;
    var s' := ProducerStep(p, s);
    match s.producer
    case Pulling =>
      if s.pulled < |p.rows| && !s.stop {
        assert p.rows[..s.pulled + 1] == p.rows[..s.pulled] + [p.rows[s.pulled]];
      }
    case Checking(row) =>
    case Putting(row) =>
      RowsInAppend(s.queue, Row(row));
      assert s.yielded + (RowsIn(s.queue) + [row]) + [] == s.yielded + RowsIn(s.queue) + [row];
    case Ending => RowsInAppend(s.queue, Sentinel);
    case Leaving =>
  }

  lemma NoRows<T>(q: seq<Slot<T>>)
    requires |q| == 0
    ensures RowsIn(q) == []
  {
  }

  lemma SentinelKeeps<T>(p: Parse<T>, s: State<T>)
    requires Inv(p, s) && s.consumer.Getting? && |s.queue| > 0 && s.queue[0].Sentinel?
    ensures Inv(p, ConsumerStep(s, false))
  {
    hide RowsIn;
    AheadBeforeStop(p, s);
    RowsInHead(s.queue);
    assert |s.queue| == 1;
    NoRows(s.queue[1..]);
    assert s.yielded + RowsIn(s.queue) + HeldBy(s.producer) == s.yielded;
  }

  lemma RowKeeps<T>(p: Parse<T>, s: State<T>)
    requires Inv(p, s) && s.consumer.Getting? && |s.queue| > 0 && s.queue[0].Row?
    ensures Inv(p, ConsumerStep(s, false))
  {
    hide RowsIn;
    RowsInHead(s.queue);
    var s', row, rest := ConsumerStep(s, false), s.queue[0].row, RowsIn(s.queue[1..]);
    assert s'.yielded + rest + HeldBy(s.producer) == s.yielded + ([row] + rest) + HeldBy(s.producer);
    assert s'.yielded == p.rows[..s.pulled][..|s'.yielded|];
    assert |s.queue| > 1 ==> Last(s'.queue) == Last(s.queue);
  }

  lemma ConsumerKeeps<T>(p: Parse<T>, s: State<T>, close: bool)
    requires Inv(p, s) && Enabled(s, Consume(close))
    ensures Inv(p, ConsumerStep(s, close))
  {
    hide RowsIn;
    match s.consumer
    case Getting => if s.queue[0].Sentinel? { SentinelKeeps(p, s); } else { RowKeeps(p, s); }
    case Yielding => AheadBeforeStop(p, s);
    case Draining(_) =>
  }

  lemma {:induction false} RunKeeps<T>(p: Parse<T>, s: State<T>, ts: seq<Turn>)
    requires Inv(p, s) && Feasible(p, s, ts)
    ensures Inv(p, Exec(p, s, ts))
  {
    if |ts| == 0 {
    } else {
      hide Inv;
      RunKeeps(p, s, Front(ts));
      var m := Exec(p, s, Front(ts));
      match Last(ts)
      case Produce => ProducerKeeps(p, m);
      case Consume(close) => ConsumerKeeps(p, m, close);
    }
  }

  lemma InitKeeps<T>(p: Parse<T>)
    ensures Inv(p, Init())
  {
    assert p.rows[..0] == [];
  }

  // ---------------------------------------------------------------- what the caller sees

  /** Whether the caller has abandoned the generator shows in where it is, and in nothing else. */
  predicate Abandoned<T>(s: State<T>) {
    (s.consumer.Draining? && s.consumer.early) || (s.consumer.Closed? && s.consumer.how == ClosedEarly)
  }

  lemma StepAbandons<T>(p: Parse<T>, s: State<T>, t: Turn)
    requires Enabled(s, t)
    ensures Abandoned(Step(p, s, t)) <==> Abandoned(s) || t == Consume(true)
  {
  }

  lemma {:induction false} AbandonedByCaller<T>(p: Parse<T>, ts: seq<Turn>)
    requires Feasible(p, Init(), ts)
    ensures Abandoned(Exec(p, Init(), ts)) <==> Consume(true) in ts
  {
    if |ts| == 0 {
    } else {
      hide Step, Enabled, Abandoned;
      AbandonedByCaller(p, Front(ts));
      StepAbandons(p, Exec(p, Init(), Front(ts)), Last(ts));
      assert ts == Front(ts) + [Last(ts)];
    }
  }

  /** In order, nothing lost, nothing invented: the rows handed out are always a prefix of the
      parsed rows. The generator ends as closed early if and only if its caller closed it at a
      yield; otherwise it has handed out every row, and then raises if and only if the parse
      failed. */
  lemma InOrder<T>(p: Parse<T>, ts: seq<Turn>)
    requires Feasible(p, Init(), ts)
    ensures var s := Exec(p, Init(), ts);
      && s.yielded <= p.rows
      && (s.consumer.Closed? ==>
           && (s.consumer.how == ClosedEarly <==> Consume(true) in ts)
           && (Consume(true) !in ts ==>
                s.yielded == p.rows && s.consumer.how == if p.fails then Raised else Exhausted))
  {
    InitKeeps(p);
    RunKeeps(p, Init(), ts);
    AbandonedByCaller(p, ts);
  }

  /** Memory: the thread is never more than 66 rows ahead of the caller. */
  lemma BoundedReadAhead<T>(p: Parse<T>, ts: seq<Turn>)
    requires Feasible(p, Init(), ts)
    ensures var s := Exec(p, Init(), ts);
      && |s.queue| <= CAPACITY && s.pulled <= |s.yielded| + 66
      && (!s.stop ==> s.pulled <= |s.yielded| + 65)
  {
    InitKeeps(p);
    RunKeeps(p, Init(), ts);
    var s := Exec(p, Init(), ts);
    hide Exec;
    if !s.stop { AheadBeforeStop(p, s); }
  }

  lemma ExecNext<T>(p: Parse<T>, s: State<T>, ts: seq<Turn>, t: Turn)
    requires Feasible(p, s, ts) && Enabled(Exec(p, s, ts), t)
    ensures Feasible(p, s, ts + [t]) && Exec(p, s, ts + [t]) == Step(p, Exec(p, s, ts), t)
  {
    hide Step, Enabled;
    assert Front(ts + [t]) == ts && Last(ts + [t]) == t;
  }

  /** The caller holds one row, the queue k more, and the thread is about to pull the next. */
  predicate ReadAhead<T>(s: State<T>, k: nat) {
    && s.pulled == k + 1 && s.producer.Pulling? && |s.queue| == k && !s.stop
    && s.consumer.Yielding? && |s.yielded| == 1
  }

  lemma NoTurns<T>(p: Parse<T>)
    ensures Feasible(p, Init(), []) && Exec(p, Init(), []) == Init()
  {
  }

  /** The thread pulls a row, finds the flag down, and puts the row. */
  lemma PutRow<T>(p: Parse<T>, ts: seq<Turn>) returns (ts': seq<Turn>)
    requires Feasible(p, Init(), ts)
    requires var s := Exec(p, Init(), ts);
      s.producer.Pulling? && s.pulled < |p.rows| && !s.stop && |s.queue| < 64
    ensures Feasible(p, Init(), ts')
    ensures var s, s' := Exec(p, Init(), ts), Exec(p, Init(), ts');
      && s' == s.(pulled := s.pulled + 1, queue := s'.queue)
      && |s'.queue| == |s.queue| + 1 && s'.queue[..|s.queue|] == s.queue && Last(s'.queue).Row?
  {
    hide Exec, Feasible;
    ExecNext(p, Init(), ts, Produce);
    ExecNext(p, Init(), ts + [Produce], Produce);
    ExecNext(p, Init(), ts + [Produce] + [Produce], Produce);
    ts' := ts + [Produce] + [Produce] + [Produce];
  }

  lemma {:induction false} FillQueue<T>(p: Parse<T>, k: nat) returns (ts: seq<Turn>)
    requires k <= 64 && |p.rows| >= 67
    ensures Feasible(p, Init(), ts) && ReadAhead(Exec(p, Init(), ts), k)
    decreases k
  {
    hide Exec, Feasible;
    if k == 0 {
      NoTurns(p);
      ts := PutRow(p, []);
      ExecNext(p, Init(), ts, Consume(false));
      ts := ts + [Consume(false)];
    } else {
      ts := FillQueue(p, k - 1);
      ts := PutRow(p, ts);
    }
  }

  /** The read-ahead bound is reached: from every parse of 67 rows or more, a run in which the caller
      has had one row and the thread has pulled 67. */
  lemma ReadAheadIsReached<T>(p: Parse<T>) returns (ts: seq<Turn>)
    requires |p.rows| >= 67
    ensures Feasible(p, Init(), ts)
    ensures var s := Exec(p, Init(), ts); |s.yielded| == 1 && s.pulled == |s.yielded| + 66
  {
    hide Exec, Feasible;
    ts := FillQueue(p, 64);
    ExecNext(p, Init(), ts, Produce);
    ts := ts + [Produce];
    ExecNext(p, Init(), ts, Produce);
    ts := ts + [Produce];
    ExecNext(p, Init(), ts, Consume(true));
    ts := ts + [Consume(true)];
    ExecNext(p, Init(), ts, Consume(false));
    ts := ts + [Consume(false)];
    ExecNext(p, Init(), ts, Produce);
    ts := ts + [Produce];
    ExecNext(p, Init(), ts, Produce);
    ts := ts + [Produce];
  }

  /** Rows the thread may still pull once the flag is up. */
  function MayPull<T>(s: State<T>): nat {
    if s.producer.Pulling? || s.producer.Putting? then 1 else 0
  }

  /** Once the stop flag is up it stays up, nothing more is handed out, and at most one more row
      is pulled: none when the thread has yet to look at the flag with a row in hand. */
  lemma {:induction false} OneMoreRow<T>(p: Parse<T>, s: State<T>, ts: seq<Turn>)
    requires Inv(p, s) && s.stop && Feasible(p, s, ts)
    ensures var s' := Exec(p, s, ts);
      && s'.stop && s'.yielded == s.yielded
      && s'.pulled + MayPull(s') <= s.pulled + MayPull(s) <= s.pulled + 1
  {
    if |ts| == 0 {
    } else {
      OneMoreRow(p, s, Front(ts));
      RunKeeps(p, s, Front(ts));
      var m := Exec(p, s, Front(ts));
      hide RowsIn;
      assert Inv(p, m);
    }
  }

  // ---------------------------------------------------------------- termination

  /** What is left to do. Every turn but a spin of the drain loop makes it smaller. */
  function Rank<T>(p: Parse<T>, s: State<T>): int {
    (if s.stop then 0 else 6 * (|p.rows| - s.pulled)) + 2 * |s.queue|
    + (match s.producer
       case Pulling => if s.stop then 6 else 5
       case Checking(_) => if s.stop then 5 else 9
       case Putting(_) => if s.stop then 9 else 8
       case Ending => 4
       case Leaving => 1
       case Finished => 0)
    + (match s.consumer
       case Getting => 2
       case Yielding => 3
       case Draining(_) => 1
       case Closed(_) => 0)
  }

  lemma StepLowersRank<T>(p: Parse<T>, s: State<T>, t: Turn)
    requires Inv(p, s) && Enabled(s, t)
    ensures 0 <= Rank(p, s)
    ensures Spins(s, t) ==> Step(p, s, t) == s
    ensures !Spins(s, t) ==> Rank(p, Step(p, s, t)) < Rank(p, s)
  {
    hide RowsIn;
  }

  /** How many turns of a run were not idle spins of the drain loop. */
  function Work<T>(p: Parse<T>, s: State<T>, ts: seq<Turn>): nat
    requires Feasible(p, s, ts)
  {
    if |ts| == 0 then 0
    else Work(p, s, Front(ts)) + if Spins(Exec(p, s, Front(ts)), Last(ts)) then 0 else 1
  }

  lemma {:induction false} WorkBounded<T>(p: Parse<T>, s: State<T>, ts: seq<Turn>)
    requires Inv(p, s) && Feasible(p, s, ts)
    ensures Work(p, s, ts) + Rank(p, Exec(p, s, ts)) <= Rank(p, s)
  {
    if |ts| == 0 {
    } else {
      hide Rank, Inv, Spins, Enabled, Step;
      WorkBounded(p, s, Front(ts));
      RunKeeps(p, s, Front(ts));
      StepLowersRank(p, Exec(p, s, Front(ts)), Last(ts));
    }
  }

  /** Nobody is ever stuck: until the generator is gone, the thread or the generator has a turn
      to take that is not a spin. In particular the drain frees a thread blocked in `put`. */
  lemma NeverStuck<T>(p: Parse<T>, s: State<T>) returns (t: Turn)
    requires Inv(p, s) && !s.consumer.Closed?
    ensures Enabled(s, t) && !Spins(s, t)
  {
    t := if |s.queue| > 0 || s.producer.Finished? || s.consumer.Yielding? then Consume(false) else Produce;
  }

  /** The bridge always comes down. A run makes at most 6 * rows + 7 turns of work; once the
      flag is up, at most 138 more whatever the file's length; and when nothing but spinning is
      left, the generator is gone and its thread has finished. */
  lemma CleanupEnds<T>(p: Parse<T>, before: seq<Turn>, after: seq<Turn>)
    requires Feasible(p, Init(), before) && Feasible(p, Exec(p, Init(), before), after)
    ensures var s := Exec(p, Init(), before);
      var s' := Exec(p, s, after);
      && Work(p, Init(), before) <= 6 * |p.rows| + 7
      && (s.stop ==> Work(p, s, after) <= 138)
      && ((forall t :: Enabled(s', t) ==> Spins(s', t)) ==> s'.consumer.Closed? && s'.producer.Finished?)
  {
    InitKeeps(p);
    RunKeeps(p, Init(), before);
    WorkBounded(p, Init(), before);
    var s := Exec(p, Init(), before);
    RunKeeps(p, s, after);
    WorkBounded(p, s, after);
    var s' := Exec(p, s, after);
    hide Exec, Work, Feasible, RowsIn;
    if !s'.consumer.Closed? { var t := NeverStuck(p, s'); }
  }
}
