/** The arq job `optimize`: one run of the worker over one job record, with
    every external call replaced by its outcome. The record moves
    `pending -> processing -> completed | failed`, except that a failure
    outside the inner `try` leaves it in `processing`. */
module Worker {
  import opened Maybe
  import opened Text
  import opened Numbers
  import opened Models
  import opened Probe

  /** What launching a command yields: its exit code and decoded output, a
      timeout (the child is killed), or another exception while spawning or
      decoding. `command` is the space-joined command line. */
  datatype RunOutcome = Exited(code: int, stdout: string, stderr: string)
                      | TimedOut(command: string)
                      | Raised(error: string)

  /** Looking up the bucket and downloading the input file. */
  datatype FetchOutcome = Fetched | FetchFailed(error: string)

  /** Uploading the optimized file. */
  datatype UploadOutcome = Uploaded | UploadFailed(error: string)

  /** Why the outer handler answered `"error"`. */
  datatype Abort = JobNotFound | StorageError(error: string) | CountUnset | CountZero

  /** The dictionary `optimize` returns. */
  datatype Reply = ErrorReply(cause: Abort) | CompletedReply(jobId: int) | FailedReply(message: string)

  const ProbeTimeout := 120
  const OptimizerTimeout := 300
  const OptimizePrefix := "Error optimizing model: "
  const ExitPrefix := "gltfpack failed with code "

  /** The `message` of an `"error"` reply. The text for an unset count is
      CPython 3.11's wording of `UnboundLocalError`. */
  function AbortMessage(a: Abort): string {
    match a
    case JobNotFound => "Job not found"
    case StorageError(e) => e
    case CountUnset => "cannot access local variable 'vertex_count' where it is not associated with a value"
    case CountZero => "division by zero"
  }

  function TimeoutText(timeout: nat, command: string): string {
    "Command timed out after " + NatToString(timeout) + " seconds: " + command
  }

  /** `run_command`: the exit code and output, or the text of the exception it raises. */
  function RunCommand(o: RunOutcome, timeout: nat): (r: Result<(int, string, string)>)
    ensures r.Ok? <==> o.Exited?
    ensures o.Exited? ==> r.value == (o.code, o.stdout, o.stderr)
    ensures o.TimedOut? ==> r.error == TimeoutText(timeout, o.command)
    ensures o.Raised? ==> r.error == o.error
  {
    match o
    case Exited(code, out, err) => Ok((code, out, err))
    case TimedOut(cmd) => Err(TimeoutText(timeout, cmd))
    case Raised(e) => Err(e)
  }

  /** `update_job_status`: sets the status and `updated_at`; the error
      message only when a non-empty one is supplied. */
  function UpdateJobStatus(job: JobRecord, status: Status, error: Option<string>, now: int): (j: JobRecord)
    ensures j.status == status && j.updatedAt == now
    ensures Truthy(error) ==> j.errorMessage == error
    ensures !Truthy(error) ==> j.errorMessage == job.errorMessage
    ensures j.(status := job.status, errorMessage := job.errorMessage, updatedAt := job.updatedAt) == job
  {
    var j := job.(status := status, updatedAt := now);
    if Truthy(error) then j.(errorMessage := error) else j
  }

  /** The B2 key of a job's optimized file. */
  function OutputKey(userEmail: string, jobId: int): string {
    "outputs/" + userEmail + "/" + IntToString(jobId) + ".glb"
  }

  /** The arq `_job_id` under which a job is queued. */
  function EnqueueKey(jobId: int): string {
    "optimize:" + IntToString(jobId)
  }

  /** Two jobs share a queue key only if they are the same job, so the
      queue's de-duplication by key never merges different jobs. */
  lemma EnqueueKeyInjective(a: int, b: int)
    ensures EnqueueKey(a) == EnqueueKey(b) <==> a == b
  {
    if EnqueueKey(a) == EnqueueKey(b) {
      var p := "optimize:";
      assert EnqueueKey(a)[|p|..] == IntToString(a);
      assert EnqueueKey(b)[|p|..] == IntToString(b);
      IntToStringInjective(a, b);
    }
  }

  /** Lines 63-74: the count the input probe leaves in the local
      `vertex_count`. Every failure, including a failed parse, is swallowed. */
  function InputCount(probe: RunOutcome): (c: Option<int>)
    ensures c.Some? <==> probe.Exited? && ReadProbe(probe.stdout).Count?
    ensures c.Some? ==> c.value == ReadProbe(probe.stdout).n
  {
    match RunCommand(probe, ProbeTimeout)
    case Err(_) => None
    case Ok((_, out, _)) =>
      match ReadProbe(out)
      case Count(n) => Some(n)
      case _ => None
  }

  /** Marks a job failed with `message` and answers `"failed"`. */
  function Fail(job: JobRecord, message: string, now: int): (r: (JobRecord, Reply))
    ensures r.1 == FailedReply(message) && r.0.status == Failed && r.0.updatedAt == now
    ensures r.0 == job.(status := Failed, errorMessage := if message == [] then job.errorMessage else Some(message),
                        updatedAt := now)
  {
    (UpdateJobStatus(job, Failed, Some(message), now), FailedReply(message))
  }

  /** The optimizer ran and exited with status 0. */
  predicate OptimizerSucceeded(o: RunOutcome) {
    o.Exited? && o.code == 0
  }

  /** The output probe ran and its marker line, if it printed one, parsed. */
  predicate OutputProbed(p: RunOutcome) {
    p.Exited? && !ReadProbe(p.stdout).Malformed?
  }

  /** Why the output probe could not be read: the text of the exception
      raised while running it or while parsing its marker line. */
  function ProbeFailure(p: RunOutcome): string
    requires !OutputProbed(p)
  {
    if p.Exited? then ReadProbe(p.stdout).error else RunCommand(p, ProbeTimeout).error
  }

  /** Lines 109-113: `vertex_count_after` once the output probe was read; a
      probe without a marker line leaves the stored value alone. */
  function CountAfter(job: JobRecord, p: RunOutcome): Option<int>
    requires OutputProbed(p)
  {
    if ReadProbe(p.stdout).Count? then Some(ReadProbe(p.stdout).n) else job.vertexCountAfter
  }

  /** Lines 95-135: optimize, probe the output, upload, finish. Any exception
      here, including a failed parse of the output probe, fails the job. */
  function OptimizeBlock(job: JobRecord, jobId: int, optimizer: RunOutcome, probe: RunOutcome,
                         upload: UploadOutcome, now: int): (r: (JobRecord, Reply))
    // each way the block can end, in the order the code meets them
    ensures !optimizer.Exited? ==>
      r.1 == FailedReply(OptimizePrefix + RunCommand(optimizer, OptimizerTimeout).error)
    ensures optimizer.Exited? && optimizer.code != 0 ==>
      r.1 == FailedReply(ExitPrefix + IntToString(optimizer.code) + ": " + optimizer.stderr)
    ensures OptimizerSucceeded(optimizer) && !OutputProbed(probe) ==>
      r.1 == FailedReply(OptimizePrefix + ProbeFailure(probe)) && r.0.vertexCountAfter == job.vertexCountAfter
    ensures OptimizerSucceeded(optimizer) && OutputProbed(probe) ==>
      && r.0.vertexCountAfter == CountAfter(job, probe)
      && (upload.UploadFailed? ==> r.1 == FailedReply(OptimizePrefix + upload.error))
      && (upload.Uploaded? ==> r.1 == CompletedReply(jobId))
    ensures !OptimizerSucceeded(optimizer) ==> r.0.vertexCountAfter == job.vertexCountAfter
    // what the record holds afterwards
    ensures r.0.updatedAt == now
    ensures r.1.CompletedReply? <==> r.0.status == Completed
    ensures r.1.FailedReply? <==> r.0.status == Failed
    ensures r.1.CompletedReply? || r.1.FailedReply?
    ensures r.1.FailedReply? ==> r.0.errorMessage == Some(r.1.message) && r.0.outputFile == job.outputFile
    ensures r.1.FailedReply? ==> OccursAt(r.1.message, OptimizePrefix, 0) || OccursAt(r.1.message, ExitPrefix, 0)
    ensures r.1.CompletedReply? ==> r.0.outputFile == Some(OutputKey(job.userEmail, jobId)) && r.1.jobId == jobId
    ensures r.1.CompletedReply? ==> r.0.errorMessage == job.errorMessage
    ensures r.0.previewFile == job.previewFile && r.0.vertexCountBefore == job.vertexCountBefore
    ensures r.0.(status := job.status, errorMessage := job.errorMessage, updatedAt := job.updatedAt,
                 outputFile := job.outputFile, vertexCountAfter := job.vertexCountAfter) == job
  {
    match RunCommand(optimizer, OptimizerTimeout)
    case Err(e) => Fail(job, OptimizePrefix + e, now)
    case Ok((code, _, stderr)) =>
      if code != 0 then Fail(job, ExitPrefix + IntToString(code) + ": " + stderr, now)
      else match RunCommand(probe, ProbeTimeout)
        case Err(e) => Fail(job, OptimizePrefix + e, now)
        case Ok((_, out, _)) =>
          match ReadProbe(out)
          case Malformed(e) => Fail(job, OptimizePrefix + e, now)
          case NoMarker => Finish(job, jobId, upload, now)
          case Count(n) => Finish(job.(vertexCountAfter := Some(n)), jobId, upload, now)
  }

  /** Lines 115-129: upload the output, then record it and complete. */
  function Finish(job: JobRecord, jobId: int, upload: UploadOutcome, now: int): (r: (JobRecord, Reply))
    ensures upload.UploadFailed? ==> r == Fail(job, OptimizePrefix + upload.error, now)
    ensures upload.Uploaded? ==>
      && r.1 == CompletedReply(jobId)
      && r.0 == job.(outputFile := Some(OutputKey(job.userEmail, jobId)), status := Completed, updatedAt := now)
  {
    match upload
    case UploadFailed(e) => Fail(job, OptimizePrefix + e, now)
    case Uploaded =>
      (job.(outputFile := Some(OutputKey(job.userEmail, jobId)), status := Completed, updatedAt := now),
       CompletedReply(jobId))
  }

  /** Lines 41-139 once the job is found. */
  function Process(job: JobRecord, jobId: int, previewOnly: bool, fetch: FetchOutcome, probeIn: RunOutcome,
                   optimizer: RunOutcome, probeOut: RunOutcome, upload: UploadOutcome, now: int): (r: (JobRecord, Reply))
    // every run stamps the record and keeps its identity
    ensures r.0.updatedAt == now
    ensures r.0.id == job.id && r.0.userEmail == job.userEmail && r.0.inputFile == job.inputFile
    ensures r.0.targetTriangles == job.targetTriangles && r.0.isPaid == job.isPaid
    ensures r.0.createdAt == job.createdAt && r.0.expiresAt == job.expiresAt
    // the reply says which state the record is left in
    ensures r.1.ErrorReply? <==> r.0.status == Processing
    ensures r.1.CompletedReply? <==> r.0.status == Completed
    ensures r.1.FailedReply? <==> r.0.status == Failed
    ensures r.1.ErrorReply? ==> r.1.cause != JobNotFound
    // the input count is stored exactly when the input probe read one
    ensures r.0.vertexCountBefore == (if fetch.Fetched? && InputCount(probeIn).Some? then InputCount(probeIn) else job.vertexCountBefore)
    // a failure before the inner block leaves the job in processing
    ensures fetch.FetchFailed? ==> r == (job.(status := Processing, updatedAt := now), ErrorReply(StorageError(fetch.error)))
    ensures fetch.Fetched? && !previewOnly && InputCount(probeIn).None? ==> r.1 == ErrorReply(CountUnset)
    ensures fetch.Fetched? && !previewOnly && InputCount(probeIn) == Some(0) ==> r.1 == ErrorReply(CountZero)
    // only a failure records an error message, and a failure keeps the old output
    ensures r.1.FailedReply? ==> r.0.errorMessage == Some(r.1.message) && r.0.outputFile == job.outputFile
    ensures !r.1.FailedReply? ==> r.0.errorMessage == job.errorMessage
    ensures r.1.FailedReply? ==> OccursAt(r.1.message, OptimizePrefix, 0) || OccursAt(r.1.message, ExitPrefix, 0)
    // a preview completes without optimizing: input reused, output untouched
    ensures previewOnly ==> !r.1.FailedReply?
    ensures previewOnly && r.1.CompletedReply? ==>
      (r.0.previewFile == job.inputFile && r.0.outputFile == job.outputFile && r.0.vertexCountAfter == job.vertexCountAfter)
    // a full run that completes has stored its output under the owner's prefix
    ensures !previewOnly && r.1.CompletedReply? ==>
      (r.0.outputFile == Some(OutputKey(job.userEmail, jobId)) && r.0.previewFile == job.previewFile)
    ensures r.1.CompletedReply? ==> r.1.jobId == jobId
    ensures !r.1.CompletedReply? ==> r.0.previewFile == job.previewFile && r.0.outputFile == job.outputFile
    // a fetched preview always completes (lines 77-84)
    ensures fetch.Fetched? && previewOnly ==> r.1 == CompletedReply(jobId)
  {
    var started := UpdateJobStatus(job, Processing, None, now);
    match fetch
    case FetchFailed(e) => (started, ErrorReply(StorageError(e)))
    case Fetched =>
      var count := InputCount(probeIn);
      var probed := if count.Some? then started.(vertexCountBefore := count) else started;
      if previewOnly then
        (probed.(status := Completed, previewFile := probed.inputFile, updatedAt := now), CompletedReply(jobId))
      else if count.None? then (probed, ErrorReply(CountUnset))
      else if count.value == 0 then (probed, ErrorReply(CountZero))
      else OptimizeBlock(probed, jobId, optimizer, probeOut, upload, now)
  }

  /** A full run with a usable input count whose optimizer or output probe
      fails: the job is failed with the message of the step that failed. */
  lemma FullRunFailures(job: JobRecord, jobId: int, probeIn: RunOutcome, optimizer: RunOutcome,
                        probeOut: RunOutcome, upload: UploadOutcome, now: int)
    ensures InputCount(probeIn).Some? && InputCount(probeIn).value != 0 ==>
      var r := Process(job, jobId, false, Fetched, probeIn, optimizer, probeOut, upload, now);
      && (!optimizer.Exited? ==> r.1 == FailedReply(OptimizePrefix + RunCommand(optimizer, OptimizerTimeout).error))
      && (optimizer.Exited? && optimizer.code != 0 ==>
            r.1 == FailedReply(ExitPrefix + IntToString(optimizer.code) + ": " + optimizer.stderr))
      && (OptimizerSucceeded(optimizer) && !OutputProbed(probeOut) ==>
            r.1 == FailedReply(OptimizePrefix + ProbeFailure(probeOut)))
  {
    FullRunIsBlock(job, jobId, probeIn, optimizer, probeOut, upload, now);
  }

  /** A full run with a usable input count whose optimizer and output probe
      succeed ends with the upload: completed, with the output key and the
      after-count stored, or failed with the upload's error and the
      after-count still stored. */
  lemma FullRunCompletes(job: JobRecord, jobId: int, probeIn: RunOutcome, optimizer: RunOutcome,
                         probeOut: RunOutcome, upload: UploadOutcome, now: int)
    ensures InputCount(probeIn).Some? && InputCount(probeIn).value != 0
            && OptimizerSucceeded(optimizer) && OutputProbed(probeOut) ==>
      var r := Process(job, jobId, false, Fetched, probeIn, optimizer, probeOut, upload, now);
      && r.0.vertexCountAfter == CountAfter(job, probeOut)
      && (upload.UploadFailed? ==> r.1 == FailedReply(OptimizePrefix + upload.error) && r.0.status == Failed)
      && (upload.Uploaded? ==>
            && r.1 == CompletedReply(jobId) && r.0.status == Completed
            && r.0.outputFile == Some(OutputKey(job.userEmail, jobId)))
  {
    var count := InputCount(probeIn);
    if count.Some? && count.value != 0 && OptimizerSucceeded(optimizer) && OutputProbed(probeOut) {
      FullRunIsBlock(job, jobId, probeIn, optimizer, probeOut, upload, now);
      var probed := job.(status := Processing, updatedAt := now, vertexCountBefore := count);
      assert CountAfter(probed, probeOut) == CountAfter(job, probeOut);
    }
  }

  /** Past the input probe, a full run is the inner block over the record
      marked `processing` with the input count stored. */
  lemma FullRunIsBlock(job: JobRecord, jobId: int, probeIn: RunOutcome, optimizer: RunOutcome,
                       probeOut: RunOutcome, upload: UploadOutcome, now: int)
    ensures InputCount(probeIn).Some? && InputCount(probeIn).value != 0 ==>
      Process(job, jobId, false, Fetched, probeIn, optimizer, probeOut, upload, now)
        == OptimizeBlock(job.(status := Processing, updatedAt := now, vertexCountBefore := InputCount(probeIn)),
                         jobId, optimizer, probeOut, upload, now)
  {
  }

  /** `optimize(ctx, job_id, preview_only)` over the job table: a missing job
      is answered `"error"` with nothing written; otherwise only that job's
      record changes, as `Process` says. */
  function Optimize(store: JobStore, jobId: int, previewOnly: bool, fetch: FetchOutcome, probeIn: RunOutcome,
                    optimizer: RunOutcome, probeOut: RunOutcome, upload: UploadOutcome, now: int): (r: (JobStore, Reply))
    ensures jobId !in store ==> r.0 == store && r.1 == ErrorReply(JobNotFound)
    ensures r.0.Keys == store.Keys
    ensures forall k :: k in store && k != jobId ==> r.0[k] == store[k]
    ensures jobId in store ==>
      (r.0[jobId], r.1) == Process(store[jobId], jobId, previewOnly, fetch, probeIn, optimizer, probeOut, upload, now)
  {
    if jobId !in store then (store, ErrorReply(JobNotFound))
    else
      var (job, reply) := Process(store[jobId], jobId, previewOnly, fetch, probeIn, optimizer, probeOut, upload, now);
      (store[jobId := job], reply)
  }

  /** A preview run never launches the optimizer, probes its output or
      uploads: those outcomes cannot change the result. */
  lemma PreviewIgnoresOptimizer(job: JobRecord, jobId: int, fetch: FetchOutcome, probeIn: RunOutcome,
                                o1: RunOutcome, p1: RunOutcome, u1: UploadOutcome,
                                o2: RunOutcome, p2: RunOutcome, u2: UploadOutcome, now: int)
    ensures Process(job, jobId, true, fetch, probeIn, o1, p1, u1, now) == Process(job, jobId, true, fetch, probeIn, o2, p2, u2, now)
  {
  }

  /** The two probes treat an unreadable count differently: on the input it
      is swallowed and a preview still completes with the old count kept; on
      the output it fails the job with the parse error. */
  lemma ProbeAsymmetry(job: JobRecord, jobId: int, probeIn: RunOutcome, optimizer: RunOutcome,
                       probeOut: RunOutcome, upload: UploadOutcome, now: int)
    ensures probeIn.Exited? && ReadProbe(probeIn.stdout).Malformed? ==>
      var r := Process(job, jobId, true, Fetched, probeIn, optimizer, probeOut, upload, now);
      r.0.status == Completed && r.0.vertexCountBefore == job.vertexCountBefore
    ensures (&& InputCount(probeIn).Some? && InputCount(probeIn).value != 0
             && optimizer.Exited? && optimizer.code == 0
             && probeOut.Exited? && ReadProbe(probeOut.stdout).Malformed?) ==>
      var r := Process(job, jobId, false, Fetched, probeIn, optimizer, probeOut, upload, now);
      r.0.status == Failed && r.1 == FailedReply(OptimizePrefix + ReadProbe(probeOut.stdout).error)
  {
  }

  /** A timeout and a non-zero exit both fail the job, with messages that
      tell them apart. */
  lemma OptimizerFailures(job: JobRecord, jobId: int, probeIn: RunOutcome, optimizer: RunOutcome,
                          probeOut: RunOutcome, upload: UploadOutcome, now: int)
    ensures InputCount(probeIn).Some? && InputCount(probeIn).value != 0 && optimizer.TimedOut? ==>
      Process(job, jobId, false, Fetched, probeIn, optimizer, probeOut, upload, now).1
        == FailedReply(OptimizePrefix + TimeoutText(OptimizerTimeout, optimizer.command))
    ensures InputCount(probeIn).Some? && InputCount(probeIn).value != 0 && optimizer.Exited? && optimizer.code != 0 ==>
      var r := Process(job, jobId, false, Fetched, probeIn, optimizer, probeOut, upload, now);
      && r.1 == FailedReply(ExitPrefix + IntToString(optimizer.code) + ": " + optimizer.stderr)
      && r.0.outputFile == job.outputFile
  {
  }

  /** The gap: a job whose storage fails, or whose input count is unset or
      zero on a full run, is left `processing` for good by this run. */
  lemma LeftProcessing(job: JobRecord, jobId: int, previewOnly: bool, fetch: FetchOutcome, probeIn: RunOutcome,
                       optimizer: RunOutcome, probeOut: RunOutcome, upload: UploadOutcome, now: int)
    requires fetch.FetchFailed? || (!previewOnly && (InputCount(probeIn).None? || InputCount(probeIn) == Some(0)))
    ensures Process(job, jobId, previewOnly, fetch, probeIn, optimizer, probeOut, upload, now).0.status == Processing
  {
  }

  /** The worker never reads the prior status: a job already completed goes
      back to `processing` when a later run of it fails before the inner block. */
  lemma RerunReopensCompletedJob(job: JobRecord, jobId: int, error: string, probeIn: RunOutcome,
                                 optimizer: RunOutcome, probeOut: RunOutcome, upload: UploadOutcome, now: int)
    requires job.status == Completed
    ensures Process(job, jobId, false, FetchFailed(error), probeIn, optimizer, probeOut, upload, now).0.status == Processing
  {
  }
}
