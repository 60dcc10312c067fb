/** The developer scripts that force a job to `completed`: `complete_job` in
    the admin utilities and the stand-alone `fix_job` script. Both write mock
    vertex counts and point the preview at the input, whatever state the job
    was in. */
module Maintenance {
  import opened Maybe
  import opened Numbers
  import opened Models

  /** Fields a force-complete never touches. */
  predicate SameIdentity(a: JobRecord, b: JobRecord) {
    && a.id == b.id && a.userEmail == b.userEmail && a.inputFile == b.inputFile
    && a.outputFile == b.outputFile && a.targetTriangles == b.targetTriangles
    && a.errorMessage == b.errorMessage && a.isPaid == b.isPaid
    && a.createdAt == b.createdAt && a.expiresAt == b.expiresAt
  }

  /** The update both scripts perform, with the preview reference they choose. */
  function ForceComplete(job: JobRecord, preview: Option<string>, now: int): (j: JobRecord)
    ensures SameIdentity(job, j)
    ensures j.status == Completed && j.previewFile == preview && j.updatedAt == now
    ensures j.vertexCountBefore == Some(MockVertexBefore) && j.vertexCountAfter == Some(MockVertexAfter)
  {
    job.(status := Completed, previewFile := preview,
         vertexCountBefore := Some(MockVertexBefore), vertexCountAfter := Some(MockVertexAfter),
         updatedAt := now)
  }

  /** `complete_job`: refuses an unknown job or one without an input file,
      and otherwise completes it with the input as its preview. */
  function CompleteJob(store: JobStore, jobId: int, now: int): (r: (JobStore, bool))
    ensures r.1 <==> jobId in store && Truthy(store[jobId].inputFile)
    ensures !r.1 ==> r.0 == store
    ensures r.1 ==>
      && jobId in r.0 && r.0 == store[jobId := r.0[jobId]]
      && SameIdentity(store[jobId], r.0[jobId])
      && r.0[jobId].status == Completed && r.0[jobId].previewFile == store[jobId].inputFile
      && r.0[jobId].vertexCountBefore == Some(MockVertexBefore)
      && r.0[jobId].vertexCountAfter == Some(MockVertexAfter)
      && r.0[jobId].updatedAt == now
  {
    if jobId !in store then (store, false)
    else
      var job := store[jobId];
      if !Truthy(job.inputFile) then (store, false)
      else (store[jobId := ForceComplete(job, job.inputFile, now)], true)
  }

  /** Exit status 0 or 1 of the script, and the table afterwards. */
  datatype ScriptRun = ScriptRun(store: JobStore, exitCode: int)

  /** `fix_job.py JOB_ID`: `argv` includes the script name; `dbExists` is
      whether the database file is present. The job's input and status are
      not checked. */
  function FixJob(argv: seq<string>, dbExists: bool, store: JobStore, now: int): (r: ScriptRun)
    ensures r.exitCode == 0 || r.exitCode == 1
    ensures r.exitCode == 0 <==> |argv| >= 2 && ParseInt(argv[1]).Some? && dbExists
                                 && ParseInt(argv[1]).value in store
    ensures r.exitCode == 1 ==> r.store == store
    ensures r.exitCode == 0 ==>
      var id := ParseInt(argv[1]).value;
      && id in r.store && r.store == store[id := r.store[id]]
      && SameIdentity(store[id], r.store[id])
      && r.store[id].status == Completed && r.store[id].previewFile == store[id].inputFile
      && r.store[id].vertexCountBefore == Some(MockVertexBefore)
      && r.store[id].vertexCountAfter == Some(MockVertexAfter)
      && r.store[id].updatedAt == now
  {
    if |argv| < 2 then ScriptRun(store, 1)
    else
      match ParseInt(argv[1])
      case None => ScriptRun(store, 1)
      case Some(id) =>
        if !dbExists then ScriptRun(store, 1)
        else if id !in store then ScriptRun(store, 1)
        else ScriptRun(store[id := ForceComplete(store[id], store[id].inputFile, now)], 0)
  }

  /** Given the job id as its printed decimal, the script does what
      `complete_job` does for any job that has an input file. */
  lemma FixJobAgreesWithCompleteJob(script: string, store: JobStore, jobId: int, now: int)
    requires jobId in store && Truthy(store[jobId].inputFile)
    ensures FixJob([script, IntToString(jobId)], true, store, now) == ScriptRun(CompleteJob(store, jobId, now).0, 0)
  {
    ParseIntToString(jobId);
    assert [script, IntToString(jobId)][1] == IntToString(jobId);
  }

  /** Where the two differ: a job without an input file is refused by
      `complete_job` but completed by the script, with no preview. */
  lemma FixJobSkipsInputCheck(script: string, store: JobStore, jobId: int, now: int)
    requires jobId in store && store[jobId].inputFile.None?
    ensures !CompleteJob(store, jobId, now).1
    ensures var run := FixJob([script, IntToString(jobId)], true, store, now);
      run.exitCode == 0 && run.store[jobId].status == Completed && run.store[jobId].previewFile.None?
  {
    ParseIntToString(jobId);
    assert [script, IntToString(jobId)][1] == IntToString(jobId);
  }

  /** Terminal states are overwritten: a failed job with an input becomes
      completed and keeps its error message and lack of output. */
  lemma FailedJobForcedComplete(store: JobStore, jobId: int, now: int)
    requires jobId in store && store[jobId].status == Failed && Truthy(store[jobId].inputFile)
    ensures var after := CompleteJob(store, jobId, now).0[jobId];
      after.status == Completed && after.errorMessage == store[jobId].errorMessage
      && after.outputFile == store[jobId].outputFile
  {
  }

  /** A job that already completed is rewritten too: its real preview and
      vertex counts are replaced by the input and the mock counts. */
  lemma CompletedJobRewritten(store: JobStore, jobId: int, now: int)
    requires jobId in store && store[jobId].status == Completed && Truthy(store[jobId].inputFile)
    ensures var after := CompleteJob(store, jobId, now).0[jobId];
      after.previewFile == store[jobId].inputFile && after.vertexCountAfter == Some(MockVertexAfter)
  {
  }
}
