// The result file of a whole job: core/worker.py submits the rows, core/sink.py writes them, and
// `replay` reads them back after the job or after a crash.

module ResultFile {
  import opened Models
  import opened ResultLog
  import opened TornLog
  import Job
  import JobCustody
  import JobRuns
  import Sink

  /** The texts that the job model leaves out, by place in ingest order. */
  datatype Texts = Texts(id: nat -> Text, response: nat -> Text, message: nat -> Text, latency: nat -> string)

  ghost predicate ValidTexts(t: Texts) {
    forall i: nat :: Paired(t.id(i)) && NumToken(t.latency(i))
  }

  function Line(t: Texts, row: Job.OutRow): LogRow {
    match row
    case Done(task, inputs, outputs) =>
      ResultRow(t.id(task.idx), t.response(task.idx), inputs, outputs, t.latency(task.idx), task.attempt)
    case Failed(task, kind, attempt, status) =>
      ErrorRow(t.id(task.idx), kind, t.message(task.idx), attempt, status)
  }

  function Lines(t: Texts, log: seq<Job.OutRow>): (rows: seq<LogRow>)
    ensures |rows| == |log| && forall i :: 0 <= i < |log| ==> rows[i] == Line(t, log[i])
  {
    if log == [] then [] else Lines(t, Front(log)) + [Line(t, Last(log))]
  }

  lemma LinesValid(t: Texts, log: seq<Job.OutRow>)
    requires ValidTexts(t)
    ensures ValidRows(Lines(t, log))
  {
  }

  lemma {:induction false} LinesCount(t: Texts, log: seq<Job.OutRow>)
    ensures Results(Lines(t, log)) == JobCustody.Successes(log)
    ensures Results(Lines(t, log)) + Errors(Lines(t, log)) == |log|
  {
    if log == [] {
    } else {
      LinesCount(t, Front(log));
      assert Front(Lines(t, log)) == Lines(t, Front(log));
    }
  }

  lemma {:induction false} ResolvedPrefix(log: seq<Job.OutRow>, n: nat, i: nat)
    requires n <= |log|
    ensures JobCustody.Resolved(log[..n], i) <= JobCustody.Resolved(log, i)
    ensures JobCustody.Successes(log[..n]) <= JobCustody.Successes(log)
    ensures n - JobCustody.Successes(log[..n]) <= |log| - JobCustody.Successes(log)
  {
    if n == |log| {
      assert log[..n] == log;
    } else {
      ResolvedPrefix(Front(log), n, i);
      assert Front(log)[..n] == log[..n];
    }
  }

  lemma IdsOfAllItems(t: Texts, log: seq<Job.OutRow>, ingested: nat)
    requires forall i: nat :: JobCustody.Resolved(log, i) == if i < ingested then 1 else 0
    ensures Tally(Lines(t, log)).ids == set i: nat | i < ingested :: t.id(i)
  {
    hide JobCustody.Resolved, Lines, Results, Errors;
    var rows, all := Lines(t, log), set i: nat | i < ingested :: t.id(i);
    forall j: nat | j < |log| ensures rows[j].id in all {
      JobCustody.RowResolves(log, j);
      assert log[j].task.idx < ingested && rows[j].id == t.id(log[j].task.idx);
    }
    forall i: nat | i < ingested ensures t.id(i) in Tally(rows).ids {
      var j := JobCustody.ResolvedAt(log, i);
      assert rows[j] in rows && rows[j].id == t.id(i);
    }
    forall r | r in rows ensures r.id in all {
      var j: nat :| j < |rows| && rows[j] == r;
    }
    assert Tally(rows).ids <= all && all <= Tally(rows).ids;
  }

  /** After the job: replaying the lines of all its rows gives back the job's own success and failure
      counters, and the ids of all its ingested items and of nothing else. */
  lemma FinishedFileReplays(c: Job.Config, es: seq<Job.Event>, t: Texts)
    requires Job.ValidConfig(c) && Job.Feasible(c, Job.Init(c), es) && ValidTexts(t)
    requires Job.Exec(c, Job.Init(c), es).ingest.Finished?
    ensures var s := Job.Exec(c, Job.Init(c), es);
      Replayed(Written(Lines(t, s.books.log)))
        == ReplayState(s.counts.succeeded, s.counts.failed, set i: nat | i < s.counts.ingested :: t.id(i))
  {
    hide Written, Replayed, JobCustody.Resolved, ValidTexts, ValidRows;
    JobRuns.ExactlyOnce(c, es);
    JobRuns.LedgerAgreement(c, es);
    var s := Job.Exec(c, Job.Init(c), es);
    hide Job.Exec;
    var rows := Lines(t, s.books.log);
    LinesValid(t, s.books.log);
    ReplayWhole(rows);
    LinesCount(t, s.books.log);
    IdsOfAllItems(t, s.books.log, s.counts.ingested);
  }

  /** After the job and its sink: once the sink has been closed behind the last row, its file is
      whole on disk, and a replay gives back the job's own counters and item ids. */
  lemma ClosedFileReplays(c: Job.Config, es: seq<Job.Event>, t: Texts, start: real, ss: seq<Sink.Event>, k: nat)
    requires Job.ValidConfig(c) && Job.Feasible(c, Job.Init(c), es) && ValidTexts(t) && Sink.Feasible(start, ss)
    requires Job.Exec(c, Job.Init(c), es).ingest.Finished?
    requires Sink.Exec(start, ss).submitted == Lines(t, Job.Exec(c, Job.Init(c), es).books.log)
    requires !Sink.Exec(start, ss).running && Sink.Late(ss) == 0
    requires var f := Sink.Exec(start, ss);
      f.flushed <= |f.rows| && |Written(f.rows[..f.flushed])| <= k <= |Written(f.rows)|
    ensures var s, f := Job.Exec(c, Job.Init(c), es), Sink.Exec(start, ss);
      Replayed(Written(f.rows)[..k])
        == ReplayState(s.counts.succeeded, s.counts.failed, set i: nat | i < s.counts.ingested :: t.id(i))
  {
    hide Written, Replayed, Lines, ValidTexts, Job.Exec, Job.Feasible, Sink.Exec, Sink.Feasible;
    Sink.ClosedMeansDurable(start, ss);
    var f := Sink.Exec(start, ss);
    assert f.rows[..f.flushed] == f.rows;
    assert Written(f.rows)[..k] == Written(f.rows);
    FinishedFileReplays(c, es, t);
  }

  lemma AtMostOnce(c: Job.Config, es: seq<Job.Event>, i: nat)
    requires Job.ValidConfig(c) && Job.Feasible(c, Job.Init(c), es)
    ensures JobCustody.Resolved(Job.Exec(c, Job.Init(c), es).books.log, i) <= 1
  {
    JobRuns.InitInv(c);
    JobRuns.RunInv(c, Job.Init(c), es);
    hide Job.Exec, JobCustody.Resolved;
    assert JobCustody.Located(Job.Exec(c, Job.Init(c), es));
    assert JobCustody.Places(Job.Exec(c, Job.Init(c), es), i) <= 1;
  }

  /** After a crash at any point of any job: replaying what is on disk gives the tally of the
      first n rows of the job, no flushed row is beyond them, no item is in them twice, and
      neither counter exceeds the job's own. */
  lemma CrashedFileReplays(c: Job.Config, es: seq<Job.Event>, t: Texts, start: real, ss: seq<Sink.Event>, k: nat)
    returns (n: nat)
    requires Job.ValidConfig(c) && Job.Feasible(c, Job.Init(c), es) && Sink.Feasible(start, ss)
    requires Sink.Exec(start, ss).submitted == Lines(t, Job.Exec(c, Job.Init(c), es).books.log)
    requires var f := Sink.Exec(start, ss);
      f.flushed <= |f.rows| && |Written(f.rows[..f.flushed])| <= k <= |Written(f.rows)|
    ensures var s, f := Job.Exec(c, Job.Init(c), es), Sink.Exec(start, ss);
      var r := Replayed(Written(f.rows)[..k]);
      && f.flushed <= n <= |s.books.log| && r == Tally(Lines(t, s.books.log[..n]))
      && r.succeeded <= s.counts.succeeded && r.failed <= s.counts.failed
      && forall i: nat :: JobCustody.Resolved(s.books.log[..n], i) <= 1
  {
    hide Written, Replayed, JobCustody.Resolved, JobCustody.Successes;
    n := Sink.CrashRecovery(start, ss, k);
    JobRuns.Conservation(c, es);
    JobRuns.LedgerAgreement(c, es);
    var s := Job.Exec(c, Job.Init(c), es);
    hide Job.Exec, Sink.Exec;
    var log := s.books.log;
    assert Lines(t, log)[..n] == Lines(t, log[..n]);
    LinesCount(t, log[..n]);
    ResolvedPrefix(log, n, 0);
    forall i: nat ensures JobCustody.Resolved(log[..n], i) <= 1 {
      ResolvedPrefix(log, n, i);
      AtMostOnce(c, es, i);
    }
  }
}
