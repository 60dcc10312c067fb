/** The decisions of the worker diagnostic script: which `ps` lines are
    worker processes, which processing jobs look stuck and for how many
    minutes, and when the summary warns about pending jobs. Redis, `ps` and
    database access appear as their results. */
module Diagnostic {
  import opened Maybe
  import opened Text
  import opened Models

  /** Seconds a processing job may go without an update before it is reported. */
  const StuckAfter := 300

  /** The elements of `s` that `keep` accepts, in order. */
  function Filter<T(!new)>(s: seq<T>, keep: T -> bool): (r: seq<T>)
    ensures |r| <= |s|
    ensures forall k :: 0 <= k < |r| ==> keep(r[k])
    ensures forall x :: x in r <==> x in s && keep(x)
    ensures forall x :: multiset(r)[x] == (if keep(x) then multiset(s)[x] else 0)
    decreases |s|
  {
    if s == [] then []
    else
      var rest := Filter(s[1..], keep);
      assert s == [s[0]] + s[1..];
      assert forall x :: x in s <==> x == s[0] || x in s[1..];
      assert multiset(s) == multiset{s[0]} + multiset(s[1..]);
      if keep(s[0]) then [s[0]] + rest else rest
  }

  /** Filtering a concatenation filters each part and keeps them in order, so
      the kept elements appear in the order they had. */
  lemma {:induction false} FilterConcat<T(!new)>(a: seq<T>, b: seq<T>, keep: T -> bool)
    ensures Filter(a + b, keep) == Filter(a, keep) + Filter(b, keep)
    decreases |a|
  {
    if a == [] {
      assert a + b == b;
    } else {
      assert (a + b)[1..] == a[1..] + b;
      FilterConcat(a[1..], b, keep);
    }
  }

  // ------------------------------------------------------------- worker

  predicate IsWorkerLine(line: string) {
    Contains(line, "run_worker.py") && !Contains(line, "grep")
  }

  /** The lines of `ps -ef` output that name the worker script and are not the grep itself. */
  function WorkerLines(psOutput: string): (ls: seq<string>)
    ensures forall l :: l in ls <==> l in Split(psOutput, '\n') && IsWorkerLine(l)
    ensures forall l :: multiset(ls)[l] == (if IsWorkerLine(l) then multiset(Split(psOutput, '\n'))[l] else 0)
    ensures forall k :: 0 <= k < |ls| ==> '\n' !in ls[k]
  {
    Filter(Split(psOutput, '\n'), IsWorkerLine)
  }

  /** `check_worker_process`; `psOutput` is `None` when running `ps` raised. */
  function WorkerRunning(psOutput: Option<string>): (ok: bool)
    ensures ok <==> psOutput.Some? && exists l :: l in Split(psOutput.value, '\n') && IsWorkerLine(l)
  {
    match psOutput
    case None => false
    case Some(out) =>
      var ls := WorkerLines(out);
      assert ls != [] ==> ls[0] in ls;
      ls != []
  }

  /** A worker line survives joining with other `ps` lines. */
  lemma WorkerLineFound(before: string, line: string, after: string)
    requires IsWorkerLine(line) && '\n' !in line
    ensures WorkerRunning(Some(before + "\n" + line + "\n" + after))
  {
    PartBetweenSeparators(before, line, after, '\n');
  }

  // --------------------------------------------------------------- stuck

  /** The check applied to each processing job: more than five minutes since its last update. */
  predicate Overdue(job: JobRecord, now: int) {
    now - job.updatedAt > StuckAfter
  }

  function ProcessingJobs(jobs: seq<JobRecord>): (r: seq<JobRecord>)
    ensures forall j :: j in r <==> j in jobs && j.status == Processing
  {
    Filter(jobs, (j: JobRecord) => j.status == Processing)
  }

  function PendingJobs(jobs: seq<JobRecord>): (r: seq<JobRecord>)
    ensures forall j :: j in r <==> j in jobs && j.status == Pending
  {
    Filter(jobs, (j: JobRecord) => j.status == Pending)
  }

  /** The jobs reported as potentially stuck: processing and overdue. */
  function StuckJobs(jobs: seq<JobRecord>, now: int): (r: seq<JobRecord>)
    ensures forall j :: j in r <==> j in jobs && j.status == Processing && now - j.updatedAt > 300
  {
    Filter(ProcessingJobs(jobs), (j: JobRecord) => Overdue(j, now))
  }

  /** Only processing jobs are ever reported, so a job the worker never
      picked up is not flagged however old it is. */
  lemma PendingNeverStuck(jobs: seq<JobRecord>, now: int, j: JobRecord)
    requires j.status == Pending
    ensures j !in StuckJobs(jobs, now)
  {
  }

  /** The boundary is strict: exactly five minutes is not stuck. */
  lemma StuckBoundary(jobs: seq<JobRecord>, j: JobRecord)
    requires j in jobs && j.status == Processing
    ensures j !in StuckJobs(jobs, j.updatedAt + 300)
    ensures j in StuckJobs(jobs, j.updatedAt + 301)
  {
  }

  /** Python's `int(x)` on a float: truncation toward zero. */
  function Truncate(n: int, d: int): (q: int)
    requires d > 0
    ensures n >= 0 ==> q * d <= n < (q + 1) * d
    ensures n < 0 ==> (q - 1) * d < n <= q * d
  {
    if n >= 0 then n / d else -((-n) / d)
  }

  /** `int(elapsed / 60)`: whole minutes, truncated toward zero. */
  function Minutes(elapsed: int): (m: int)
    ensures elapsed >= 0 ==> m == elapsed / 60
  {
    Truncate(elapsed, 60)
  }

  /** A stuck job is reported as processing for at least five minutes, and
      the figure is the floor of its elapsed minutes. */
  lemma StuckMinutes(jobs: seq<JobRecord>, now: int, j: JobRecord)
    requires j in StuckJobs(jobs, now)
    ensures Minutes(now - j.updatedAt) >= 5
    ensures Minutes(now - j.updatedAt) * 60 <= now - j.updatedAt < (Minutes(now - j.updatedAt) + 1) * 60
  {
  }

  // ------------------------------------------------------------- summary

  datatype Summary = Healthy(pendingWarning: bool) | Issues(redisDown: bool, workerDown: bool)

  /** The summary of `main`: healthy only with Redis and the worker both up;
      the pending warning only when nothing is processing. */
  function Summarize(redisOk: bool, workerOk: bool, pending: seq<JobRecord>, processing: seq<JobRecord>)
    : (s: Summary)
    ensures s.Healthy? <==> redisOk && workerOk
    ensures s.Healthy? && s.pendingWarning <==> redisOk && workerOk && pending != [] && processing == []
    ensures s.Issues? ==> s.redisDown == !redisOk && s.workerDown == !workerOk
  {
    if redisOk && workerOk then Healthy(pending != [] && processing == [])
    else Issues(!redisOk, !workerOk)
  }

  /** `check_db_jobs` and the summary over a table read; a failed read
      yields two empty lists. */
  function Diagnose(redisOk: bool, psOutput: Option<string>, rows: Option<seq<JobRecord>>, now: int)
    : (r: (Summary, seq<JobRecord>))
    ensures forall j :: j in r.1 <==> rows.Some? && j in rows.value && j.status == Processing && Overdue(j, now)
    ensures r.0.Healthy? && r.0.pendingWarning ==>
      && rows.Some? && (exists j :: j in rows.value && j.status == Pending)
      && (forall j :: j in rows.value ==> j.status != Processing)
  {
    var all := rows.GetOr([]);
    var pending := PendingJobs(all);
    var processing := ProcessingJobs(all);
    assert pending != [] ==> pending[0] in pending;
    assert processing != [] ==> processing[0] in processing;
    (Summarize(redisOk, WorkerRunning(psOutput), pending, processing), StuckJobs(all, now))
  }
}
