// core/sink.py, `ResultSink`: many workers submit rows to an unbounded queue, one writer appends
// them to the file and flushes in batches. A flush puts everything written so far on disk; what
// was written since may or may not be there after a crash, up to any character.

module Sink {
  import opened Models
  import opened ResultLog
  import opened TornLog

  const FLUSH_EVERY_ROWS: nat := 100
  const FLUSH_EVERY_SECONDS: real := 2.0

  /** `rows` have been written, `times` says when, and the first `flushed` of them are on disk.
      `now` is the writer's last clock reading. `submitted` and `accepted` (submitted before
      `close`) are history. */
  datatype State = State(
    queue: seq<Option<LogRow>>, rows: seq<LogRow>, times: seq<real>, flushed: nat,
    unflushed: nat, lastFlush: real, now: real, running: bool,
    closing: bool, submitted: seq<LogRow>, accepted: seq<LogRow>)

  function Init(start: real): State {
    State([], [], [], 0, 0, start, start, true, false, [], [])
  }

  datatype Event = Submit(row: LogRow) | Close | Take(at: real) | TimeOut(at: real)

  predicate Enabled(s: State, e: Event) {
    match e
    case Submit(row) => ValidRow(row)
    case Close => !s.closing
    case Take(at) => s.running && s.now <= at && s.queue != []
    case TimeOut(at) => s.running && s.now <= at
  }

  predicate FlushDue(s: State) {
    s.unflushed >= FLUSH_EVERY_ROWS || (s.unflushed > 0 && s.now - s.lastFlush >= FLUSH_EVERY_SECONDS)
  }

  function EndIteration(s: State): State {
    if FlushDue(s) then s.(flushed := |s.rows|, unflushed := 0, lastFlush := s.now) else s
  }

  function OnTake(s: State, at: real): State
    requires s.queue != []
  {
    var s' := s.(queue := s.queue[1..], now := at);
    match s.queue[0]
    case None => s'.(flushed := |s.rows|, unflushed := 0, running := false)
    case Some(row) =>
      EndIteration(s'.(rows := s.rows + [row], times := s.times + [at], unflushed := s.unflushed + 1))
  }

  function Step(s: State, e: Event): State
    requires Enabled(s, e)
  {
    match e
    case Submit(row) =>
      s.(queue := s.queue + [Some(row)], submitted := s.submitted + [row],
         accepted := if s.closing then s.accepted else s.accepted + [row])
    case Close => s.(queue := s.queue + [None], closing := true)
    case Take(at) => OnTake(s, at)
    case TimeOut(at) => EndIteration(s.(now := at))
  }

  predicate Feasible(start: real, es: seq<Event>)
    decreases |es|, 0
  {
    es != [] ==> Feasible(start, Front(es)) && Enabled(Exec(start, Front(es)), Last(es))
  }

  function Exec(start: real, es: seq<Event>): State
    requires Feasible(start, es)
    decreases |es|, 1
  {
    if es == [] then Init(start) else Step(Exec(start, Front(es)), Last(es))
  }

  // ---------------------------------------------------------------- in place

  /** The writer, its queue and its file. `text` is all that was written to the handle, of which
      the first `durable` characters have been synced. */
  class ResultSink {
    var queue: seq<Option<LogRow>>
    var text: string
    var durable: nat
    var unflushed: nat
    var lastFlush: real
    var running: bool
    ghost var history: State

    /** The fields are those of s; the file holds the lines of the rows written, and is synced
        up to the end of one of them. */
    ghost predicate Shows(s: State)
      reads this
    {
      && s.queue == queue && s.unflushed == unflushed && s.lastFlush == lastFlush && s.running == running
      && s.flushed <= |s.rows| && text == Written(s.rows) && durable == |Written(s.rows[..s.flushed])|
    }

    constructor (start: real)
      ensures Shows(Init(start)) && history == Init(start)
    {
      queue, text, durable, unflushed, lastFlush, running := [], "", 0, 0, start, true;
      history := Init(start);
    }

    method Put(item: Option<LogRow>)
      requires Shows(history) && Enabled(history, if item.Some? then Submit(item.value) else Close)
      modifies this`queue, this`history
      ensures Shows(history) && history == Step(old(history), if item.Some? then Submit(item.value) else Close)
    {
      hide Written;
      queue := queue + [item];
      history := Step(history, if item.Some? then Submit(item.value) else Close);
    }

    method Flush()
      modifies this`durable
      ensures durable == |text|
    {
      durable := |text|;
    }

    method WriteLine(ghost s: State, row: LogRow, now: real)
      requires Shows(s)
      modifies this`text, this`unflushed
      ensures Shows(s.(rows := s.rows + [row], times := s.times + [now], unflushed := s.unflushed + 1))
    {
      hide PrintRow, Written;
      WrittenLast(s.rows + [row]);
      assert Front(s.rows + [row]) == s.rows && Last(s.rows + [row]) == row;
      assert (s.rows + [row])[..s.flushed] == s.rows[..s.flushed];
      text := text + (PrintRow(row) + "\n");
      unflushed := unflushed + 1;
    }

    method FlushIfDue(ghost s: State, now: real)
      requires Shows(s) && s.now == now
      modifies this`durable, this`unflushed, this`lastFlush
      ensures Shows(EndIteration(s))
    {
      hide Written;
      assert s.rows[..|s.rows|] == s.rows;
      if unflushed >= FLUSH_EVERY_ROWS || (unflushed > 0 && now - lastFlush >= FLUSH_EVERY_SECONDS) {
        Flush();
        unflushed, lastFlush := 0, now;
      }
    }

    /** One turn of the writer's loop: `arrived` is false when its wait for a row timed out. */
    method Iterate(arrived: bool, now: real)
      requires Shows(history) && Enabled(history, if arrived then Take(now) else TimeOut(now))
      modifies this
      ensures Shows(history) && history == Step(old(history), if arrived then Take(now) else TimeOut(now))
    {
      hide Written, EndIteration;
      ghost var s := history.(now := now);
      if arrived {
        var item := queue[0];
        queue := queue[1..];
        s := s.(queue := s.queue[1..]);
        if item.None? {
          Flush();
          unflushed, running := 0, false;
          assert s.rows[..|s.rows|] == s.rows;
          history := Step(history, Take(now));
          return;
        }
        WriteLine(s, item.value, now);
        s := s.(rows := s.rows + [item.value], times := s.times + [now], unflushed := s.unflushed + 1);
      }
      FlushIfDue(s, now);
      history := EndIteration(s);
    }
  }

  // ---------------------------------------------------------------- the invariant

  /** The rows in the queue ahead of the closing None. */
  function Ahead(q: seq<Option<LogRow>>): seq<LogRow> {
    if q == [] || q[0].None? then [] else [q[0].value] + Ahead(q[1..])
  }

  lemma {:induction false} AheadAppend(q: seq<Option<LogRow>>, x: Option<LogRow>)
    ensures Ahead(q + [x]) == if None !in q && x.Some? then Ahead(q) + [x.value] else Ahead(q)
    decreases |q|
  {
    if q == [] {
    } else {
      assert (q + [x])[1..] == q[1..] + [x] && q == [q[0]] + q[1..];
      AheadAppend(q[1..], x);
      if q[0].Some? { assert [q[0].value] + (Ahead(q[1..]) + Ahead([x])) == [q[0].value] + Ahead(q[1..]) + Ahead([x]); }
    }
  }

  ghost predicate Timely(s: State) {
    && |s.times| == |s.rows| && s.flushed + s.unflushed == |s.rows| && s.lastFlush <= s.now
    && (forall i :: s.flushed <= i < |s.times| ==> s.lastFlush <= s.times[i])
    && s.unflushed < FLUSH_EVERY_ROWS
    && (s.unflushed == 0 || s.now - s.lastFlush < FLUSH_EVERY_SECONDS)
  }

  ghost predicate InOrder(s: State) {
    && (!s.closing ==> None !in s.queue) && (s.closing && s.running ==> None in s.queue)
    && s.rows + (if s.running then Ahead(s.queue) else []) == s.accepted
    && s.accepted <= s.submitted && (!s.closing ==> s.accepted == s.submitted)
    && (!s.running ==> s.closing && s.flushed == |s.rows|)
    && ValidRows(s.submitted)
  }

  lemma StepTimely(s: State, e: Event)
    requires Timely(s) && Enabled(s, e)
    ensures Timely(Step(s, e))
  {
  }

  lemma SubmitInOrder(s: State, row: LogRow)
    requires InOrder(s) && ValidRow(row)
    ensures InOrder(Step(s, Submit(row)))
  {
    hide ValidRow, Ahead;
    AheadAppend(s.queue, Some(row));
    assert forall x :: x in s.queue + [Some(row)] <==> x in s.queue || x == Some(row);
    assert s.rows + (Ahead(s.queue) + [row]) == s.rows + Ahead(s.queue) + [row];
  }

  lemma CloseInOrder(s: State)
    requires InOrder(s) && !s.closing
    ensures InOrder(Step(s, Close))
  {
    hide ValidRow, Ahead;
    AheadAppend(s.queue, None);
    assert (s.queue + [None])[|s.queue|] == None;
  }

  lemma TakeInOrder(s: State, at: real)
    requires Timely(s) && InOrder(s) && Enabled(s, Take(at))
    ensures InOrder(Step(s, Take(at)))
  {
    hide ValidRow, FlushDue, Timely;
    var x, rest := s.queue[0], s.queue[1..];
    assert s.queue == [x] + rest;
    if x.Some? { assert s.rows + ([x.value] + Ahead(rest)) == s.rows + [x.value] + Ahead(rest); }
  }

  lemma StepInOrder(s: State, e: Event)
    requires Timely(s) && InOrder(s) && Enabled(s, e)
    ensures InOrder(Step(s, e))
  {
    hide ValidRow, FlushDue, Timely, Ahead, OnTake;
    match e
    case Submit(row) => SubmitInOrder(s, row);
    case Close => CloseInOrder(s);
    case Take(at) => TakeInOrder(s, at);
    case TimeOut(_) =>
  }

  lemma {:induction false} RunKeeps(start: real, es: seq<Event>)
    requires Feasible(start, es)
    ensures Timely(Exec(start, es)) && InOrder(Exec(start, es))
  {
    if es == [] {
      assert Ahead([]) == [];
    } else {
      hide Timely, InOrder, Step;
      RunKeeps(start, Front(es));
      StepTimely(Exec(start, Front(es)), Last(es));
      StepInOrder(Exec(start, Front(es)), Last(es));
    }
  }

  // ---------------------------------------------------------------- durability

  /** The number of rows submitted after `close` was called. */
  function Late(es: seq<Event>): nat {
    if es == [] then 0 else Late(Front(es)) + if Last(es).Submit? && Close in Front(es) then 1 else 0
  }

  /** What a step does to the record of submissions. */
  lemma StepSubmits(s: State, e: Event)
    requires Enabled(s, e)
    ensures var s' := Step(s, e);
      && s'.closing == (s.closing || e == Close)
      && |s'.submitted| == |s.submitted| + (if e.Submit? then 1 else 0)
      && |s'.accepted| == |s.accepted| + (if e.Submit? && !s.closing then 1 else 0)
  {
    hide FlushDue, ValidRow;
  }

  lemma {:induction false} LateCounts(start: real, es: seq<Event>)
    requires Feasible(start, es)
    ensures var s := Exec(start, es);
      (s.closing <==> Close in es) && Late(es) == |s.submitted| - |s.accepted|
  {
    if es == [] {
    } else {
      hide Step, Enabled;
      LateCounts(start, Front(es));
      StepSubmits(Exec(start, Front(es)), Last(es));
      assert es == Front(es) + [Last(es)];
    }
  }

  /** Durability, at every point of every run. What is on disk is a prefix of the submission
      order; after each turn of the writer's loop fewer than 100 written rows are not on disk,
      and a row that is not was written less than 2 seconds ago. */
  lemma DurablePrefix(start: real, es: seq<Event>)
    requires Feasible(start, es)
    ensures var s := Exec(start, es);
      && s.flushed <= |s.rows| && s.rows <= s.submitted
      && |s.rows| - s.flushed < FLUSH_EVERY_ROWS && |s.times| == |s.rows|
      && (forall i :: 0 <= i < |s.rows| && s.times[i] <= s.now - FLUSH_EVERY_SECONDS ==> i < s.flushed)
  {
    RunKeeps(start, es);
    var s := Exec(start, es);
    hide Exec;
    assert s.rows <= s.accepted;
  }

  /** The state just before the flush test of the writer's turn, if the event is one. */
  function BeforeTest(s: State, e: Event): Option<State>
    requires Enabled(s, e)
  {
    match e
    case TimeOut(at) => Some(s.(now := at))
    case Take(at) =>
      if s.queue[0].None? then None
      else
        Some(s.(queue := s.queue[1..], now := at, rows := s.rows + [s.queue[0].value],
                times := s.times + [at], unflushed := s.unflushed + 1))
    case _ => None
  }

  predicate FullBatch(s: State, e: Event)
    requires Enabled(s, e)
  {
    BeforeTest(s, e).Some? && BeforeTest(s, e).value.unflushed >= FLUSH_EVERY_ROWS
  }

  predicate OldBatch(s: State, e: Event)
    requires Enabled(s, e)
  {
    BeforeTest(s, e).Some? && FlushDue(BeforeTest(s, e).value) && !FullBatch(s, e)
  }

  /** How many flushes of the run were for a full batch, and how many for an old one. */
  function FullFlushes(start: real, es: seq<Event>): nat
    requires Feasible(start, es)
  {
    if es == [] then 0
    else FullFlushes(start, Front(es)) + (if FullBatch(Exec(start, Front(es)), Last(es)) then 1 else 0)
  }

  function OldFlushes(start: real, es: seq<Event>): nat
    requires Feasible(start, es)
  {
    if es == [] then 0
    else OldFlushes(start, Front(es)) + (if OldBatch(Exec(start, Front(es)), Last(es)) then 1 else 0)
  }

  lemma StepFlushes(s: State, e: Event)
    requires Timely(s) && Enabled(s, e)
    ensures var s' := Step(s, e);
      && |s'.rows| - s'.unflushed >= |s.rows| - s.unflushed + (if FullBatch(s, e) then 100 else 0)
      && s'.lastFlush >= s.lastFlush + (if OldBatch(s, e) then FLUSH_EVERY_SECONDS else 0.0)
      && ((FullBatch(s, e) || OldBatch(s, e)) ==> s'.flushed == |s'.rows|)
      && (s'.flushed > s.flushed ==> FullBatch(s, e) || OldBatch(s, e) || !s'.running)
  {
  }

  /** Syncing is batched: over any run there is at most one flush for every 100 rows written and
      one for every 2 seconds passed, besides the one at the close. */
  lemma {:induction false} FlushesAreBatched(start: real, es: seq<Event>)
    requires Feasible(start, es)
    ensures var s := Exec(start, es);
      && 100 * FullFlushes(start, es) <= |s.rows| - s.unflushed
      && 2.0 * (OldFlushes(start, es) as real) <= s.lastFlush - start <= s.now - start
  {
    RunKeeps(start, es);
    if es == [] {
    } else {
      hide Step, FullBatch, OldBatch, Enabled;
      FlushesAreBatched(start, Front(es));
      RunKeeps(start, Front(es));
      StepFlushes(Exec(start, Front(es)), Last(es));
    }
  }

  /** Once the writer has ended, everything submitted before `close` is on disk, in order; that is
      everything submitted if and only if nobody submitted after `close`. */
  lemma ClosedMeansDurable(start: real, es: seq<Event>)
    requires Feasible(start, es) && !Exec(start, es).running
    ensures var s := Exec(start, es);
      && s.flushed == |s.rows| && s.rows == s.accepted
      && (s.rows == s.submitted <==> Late(es) == 0)
  {
    RunKeeps(start, es);
    LateCounts(start, es);
    var s := Exec(start, es);
    hide Exec, Late;
    if |s.submitted| == |s.accepted| { assert s.accepted == s.submitted[..|s.accepted|]; }
  }

  lemma WrittenPrefix(rows: seq<LogRow>, m: nat, n: nat)
    requires n < m <= |rows|
    ensures EndOf(rows, n) <= |Written(rows[..m])|
  {
    hide Written, PrintRow;
    EndsAscend(rows[..m], n);
    assert rows[..m][..n] == rows[..n];
  }

  /** Crash recovery. Stop the process at any point; the file then holds everything flushed and
      any part of what was written since. A replay of it gives the counts and the ids of exactly
      the first n submitted rows, for an n that no flushed row is beyond. */
  lemma CrashRecovery(start: real, es: seq<Event>, k: nat) returns (n: nat)
    requires Feasible(start, es)
    requires var s := Exec(start, es);
      s.flushed <= |s.rows| && |Written(s.rows[..s.flushed])| <= k <= |Written(s.rows)|
    ensures var s := Exec(start, es);
      && s.flushed <= n <= |s.submitted|
      && Replayed(Written(s.rows)[..k]) == Tally(s.submitted[..n])
  {
    hide Written, Tally, Replayed, ValidRow, Timely;
    RunKeeps(start, es);
    var s := Exec(start, es);
    hide Exec;
    assert s.rows <= s.accepted;
    assert s.rows == s.submitted[..|s.rows|];
    assert ValidRows(s.rows) by {
      forall i | 0 <= i < |s.rows| ensures ValidRow(s.rows[i]) { assert s.rows[i] == s.submitted[i]; }
    }
    n := TornLogRecovery(s.rows, k);
    if n < s.flushed {
      WrittenPrefix(s.rows, s.flushed, n);
    }
    assert s.rows[..n] == s.submitted[..n];
  }

  // ---------------------------------------------------------------- what a crash can lose

  lemma {:induction false} AheadIsAll(q: seq<Option<LogRow>>)
    requires None !in q
    ensures |Ahead(q)| == |q| && forall i :: 0 <= i < |q| ==> q[i] == Some(Ahead(q)[i])
  {
    if q == [] {
    } else {
      assert q == [q[0]] + q[1..];
      AheadIsAll(q[1..]);
    }
  }

  /** Exactly what is at stake at any point before `close`: the rows still queued, and the rows
      written since the last flush, each of them less than 2 seconds before the writer's last
      turn. So fewer than 100 submitted rows are not on disk if and only if those two are fewer
      than 100 together. */
  lemma LossWindow(start: real, es: seq<Event>)
    requires Feasible(start, es) && Close !in es
    ensures var s := Exec(start, es);
      && s.flushed <= |s.rows| == |s.times| && |s.submitted| == |s.rows| + |s.queue|
      && |s.submitted| - s.flushed == |s.queue| + s.unflushed
      && (forall i :: |s.rows| <= i < |s.submitted| ==> s.queue[i - |s.rows|] == Some(s.submitted[i]))
      && (forall i :: s.flushed <= i < |s.rows| ==> s.times[i] > s.now - FLUSH_EVERY_SECONDS)
      && (|s.submitted| - s.flushed < FLUSH_EVERY_ROWS <==> |s.queue| + s.unflushed < FLUSH_EVERY_ROWS)
  {
    hide Exec, Late, Feasible, ValidRow, Ahead;
    RunKeeps(start, es);
    LateCounts(start, es);
    DurablePrefix(start, es);
    AheadIsAll(Exec(start, es).queue);
  }

  predicate SubmitsOnly(es: seq<Event>) { forall i :: 0 <= i < |es| ==> es[i].Submit? }

  lemma {:induction false} SubmitsOnlyQueue(start: real, es: seq<Event>, more: seq<Event>)
    requires Feasible(start, es + more) && SubmitsOnly(more)
    ensures Feasible(start, es)
    ensures var s, s' := Exec(start, es), Exec(start, es + more);
      && s'.rows == s.rows && s'.times == s.times && s'.flushed == s.flushed && s'.now == s.now
      && s'.running == s.running && |s'.submitted| == |s.submitted| + |more|
    decreases |more|
  {
    if more == [] {
      assert es + more == es;
    } else {
      hide ValidRow;
      assert Front(es + more) == es + Front(more) && Last(es + more) == Last(more) == more[|more| - 1];
      SubmitsOnlyQueue(start, es, Front(more));
    }
  }

  /** The two-second half: if the writer's last turn left its queue empty, then a row that is not
      on disk was written less than 2 seconds before that turn, or submitted since. */
  lemma LossWindowInSeconds(start: real, turns: seq<Event>, more: seq<Event>)
    requires Feasible(start, turns + more) && Close !in turns && SubmitsOnly(more)
    ensures Feasible(start, turns)
    ensures var s, s' := Exec(start, turns), Exec(start, turns + more);
      && s'.now == s.now && |s'.times| == |s'.rows|
      && (s.queue == [] ==>
           forall i :: s'.flushed <= i < |s'.submitted| ==>
             (i < |s'.times| && s'.times[i] > s.now - FLUSH_EVERY_SECONDS) || i >= |s.submitted|)
  {
    SubmitsOnlyQueue(start, turns, more);
    LossWindow(start, turns);
  }

  /** A submitted row is only queued: the writer need not have had a turn. */
  lemma {:induction false} SubmittedMayWait(start: real, rows: seq<LogRow>) returns (es: seq<Event>)
    requires ValidRows(rows)
    ensures Feasible(start, es) && SubmitsOnly(es)
    ensures var s := Exec(start, es);
      s.submitted == rows && s.rows == [] && s.flushed == 0 && s.running && s.now == start
    decreases |rows|
  {
    if rows == [] {
      es := [];
    } else {
      hide ValidRow;
      var f := SubmittedMayWait(start, Front(rows));
      assert ValidRow(rows[|rows| - 1]);
      es := f + [Submit(Last(rows))];
      assert Front(es) == f && Last(es) == Submit(Last(rows)) && Front(rows) + [Last(rows)] == rows;
    }
  }
}
