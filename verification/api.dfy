/** The HTTP routes under `/api`, as decisions over the job and plan tables:
    the token gate, upload validation, job creation for previews and paid
    optimizations, the status projection and the download guards. Storage,
    queue, file-system and signing calls appear as their outcomes. */
module Api {
  import opened Maybe
  import opened Text
  import opened Models
  import opened Paths

  const AllowedExtensions: set<string> := {".glb", ".fbx", ".gltf"}
  const MaxFileSize := 100 * 1024 * 1024
  const MinTarget := 1000
  const MaxTarget := 100000
  const PreviewTarget := 10000
  const Anonymous := "anonymous"

  /** An HTTP answer: an error status with its detail, or a served body. */
  datatype Reply<T> = Refused(code: int, detail: string) | Served(body: T)

  /** An unhandled exception, as the framework answers it. */
  function ServerError<T>(): (r: Reply<T>)
    ensures r.Refused? && r.code == 500
  {
    Refused(500, "Internal Server Error")
  }

  /** The same refusal, whatever body type the route would have served. */
  predicate SameRefusal<T, U>(a: Reply<T>, b: Reply<U>) {
    a.Refused? && b.Refused? && a.code == b.code && a.detail == b.detail
  }

  // ---------------------------------------------------------------- the gate

  /** What the request presents to the gate. `HTTPBearer()` (line 18) answers
      the first two itself: no `Authorization` header, or one without both a
      scheme and credentials, and a header whose scheme is not `Bearer`. Past
      it, the bearer token fails to decode or yields its `sub` claim. */
  datatype Token = NoCredentials | OtherScheme | Undecodable | Claims(sub: Option<string>)

  /** A bearer token reached `get_current_user`. */
  predicate Presented(token: Token) {
    token.Undecodable? || token.Claims?
  }

  /** The refusals `HTTPBearer()` raises before the gate runs. */
  function BearerRefusal<T>(token: Token): (r: Reply<T>)
    requires !Presented(token)
    ensures r.Refused? && r.code == 403
  {
    if token.NoCredentials? then Refused(403, "Not authenticated")
    else Refused(403, "Invalid authentication credentials")
  }

  /** What the gate lets through, stated independently of its order of checks:
      a creator whose expiry, if any, has not passed; a single-plan user with
      credit left. */
  predicate Entitled(u: UserPlan, now: int) {
    && (u.plan == Creator ==> u.expiresAt.None? || u.expiresAt.value >= now)
    && (u.plan == Single ==> u.quota > 0)
  }

  /** `get_current_user`. */
  function GetCurrentUser(plans: PlanStore, token: Token, now: int): (r: Reply<UserPlan>)
    ensures r.Served? <==> token.Claims? && token.sub.Some? && token.sub.value in plans
                           && Entitled(plans[token.sub.value], now)
    ensures r.Served? ==> r.body == plans[token.sub.value]
    ensures Presented(token) && r.Refused? ==>
      (r.code == 403 <==> token.Claims? && token.sub.Some? && token.sub.value in plans)
    ensures r.Refused? ==> r.code == 401 || r.code == 403
    ensures token.NoCredentials? ==> r == Refused(403, "Not authenticated")
    ensures token.OtherScheme? ==> r == Refused(403, "Invalid authentication credentials")
  {
    match token
    case Undecodable => Refused(401, "Invalid authentication token")
    case Claims(None) => Refused(401, "Invalid authentication credentials")
    case Claims(Some(email)) =>
      if email !in plans then Refused(401, "User not found")
      else
        var user := plans[email];
        if user.plan == Creator && user.expiresAt.Some? && user.expiresAt.value < now then
          Refused(403, "Subscription expired")
        else if user.plan == Single && user.quota <= 0 then
          Refused(403, "No export credits remaining")
        else Served(user)
    case _ => BearerRefusal(token)
  }

  // ---------------------------------------------------------- upload checks

  /** `os.path.splitext(filename)[1].lower()`. */
  function FileExtension(filename: string): (e: string)
    ensures '/' !in e
  {
    var ext := SplitExt(filename).1;
    assert forall i :: 0 <= i < |ext| ==> LowerChar(ext[i]) != '/';
    Lower(ext)
  }

  predicate ExtensionAllowed(filename: string) {
    FileExtension(filename) in AllowedExtensions
  }

  /** A model file name, in any letter case, is accepted when the last path
      component has a non-dot character before the extension. */
  lemma AcceptedExtension(stem: string, ext: string)
    requires Lower(ext) in AllowedExtensions
    requires exists k :: BaseStart(stem) <= k < |stem| && stem[k] != '.'
    ensures ExtensionAllowed(stem + ext)
  {
    var l := Lower(ext);
    assert l[0] == '.' && forall i :: 1 <= i < |l| ==> 'a' <= l[i] <= 'z';
    assert forall i :: 1 <= i < |ext| ==> ext[i] != '.' && ext[i] != '/';
    assert ext[0] == '.';
    SplitExtOfNamed(stem, ext);
  }

  /** An accepted name ends, case aside, with an allowed extension. */
  lemma AcceptedNameEndsInExtension(filename: string)
    requires ExtensionAllowed(filename)
    ensures exists e :: e in AllowedExtensions && |e| <= |filename|
                        && Lower(filename[|filename| - |e|..]) == e
  {
    var (stem, ext) := SplitExt(filename);
    assert filename[|filename| - |ext|..] == ext;
    assert Lower(ext) in AllowedExtensions;
  }

  /** The case the test suite checks: a `.txt` upload is refused. */
  lemma TextFileRejected()
    ensures !ExtensionAllowed("test.txt")
  {
    var p := "test.txt";
    assert BaseStart("test") <= 0 && "test"[0] != '.';
    SplitExtOfNamed("test", ".txt");
    assert "test" + ".txt" == p;
    assert FileExtension(p) == ".txt";
  }

  /** Why an upload is refused before anything is stored; each is a 400. */
  datatype Rejection = InvalidFileType | TargetOutOfRange | FileTooLarge

  function RejectionReply<T>(r: Rejection): Reply<T> {
    match r
    case InvalidFileType => Refused(400, "Invalid file type")
    case TargetOutOfRange => Refused(400, "Target triangles must be between 1,000 and 100,000")
    case FileTooLarge => Refused(400, "File too large")
  }

  /** The checks of `create_preview`: type, then size. */
  function ValidatePreview(filename: string, size: nat): (r: Option<Rejection>)
    ensures r.None? <==> ExtensionAllowed(filename) && size <= MaxFileSize
    ensures !ExtensionAllowed(filename) ==> r == Some(InvalidFileType)
    ensures r != Some(TargetOutOfRange)
  {
    if !ExtensionAllowed(filename) then Some(InvalidFileType)
    else if size > MaxFileSize then Some(FileTooLarge)
    else None
  }

  /** The checks of `optimize_model`: type, then target, then size. */
  function ValidateOptimize(filename: string, target: int, size: nat): (r: Option<Rejection>)
    ensures r.None? <==> ExtensionAllowed(filename) && MinTarget <= target <= MaxTarget && size <= MaxFileSize
    ensures !ExtensionAllowed(filename) ==> r == Some(InvalidFileType)
    ensures ExtensionAllowed(filename) && !(MinTarget <= target <= MaxTarget) ==> r == Some(TargetOutOfRange)
    ensures r == Some(FileTooLarge) ==> size > MaxFileSize
  {
    if !ExtensionAllowed(filename) then Some(InvalidFileType)
    else if target < MinTarget || target > MaxTarget then Some(TargetOutOfRange)
    else if size > MaxFileSize then Some(FileTooLarge)
    else None
  }

  /** The size bound is inclusive: exactly 100 MiB passes, one byte more does not. */
  lemma SizeBoundary(filename: string)
    requires ExtensionAllowed(filename)
    ensures ValidatePreview(filename, 100 * 1024 * 1024).None?
    ensures ValidatePreview(filename, 100 * 1024 * 1024 + 1) == Some(FileTooLarge)
  {
  }

  // ---------------------------------------------------------------- preview

  /** Whether the preview job could be queued: `REDIS_URL` unset, queueing raised, or queued. */
  datatype QueueOutcome = NoRedisUrl | QueueFailed | Queued

  datatype PreviewBody = PreviewBody(jobId: int, status: Status, message: string)

  /** The local copy every preview upload is written to. */
  function LocalUploadPath(uuid: string, ext: string): string {
    "uploads" + "/" + (uuid + ext)
  }

  /** The B2 key a preview upload is stored under. */
  function PreviewKey(uuid: string, ext: string): string {
    "uploads/" + uuid + ext
  }

  /** The reference stored as `input_file`: the B2 key after a successful upload, else the local path. */
  function PreviewInputFile(uuid: string, ext: string, uploaded: bool): string {
    if uploaded then PreviewKey(uuid, ext) else LocalUploadPath(uuid, ext)
  }

  /** The two references are the same text, so the record cannot tell a
      local input from a remote one. */
  lemma InputReferenceChoiceMoot(uuid: string, ext: string)
    ensures PreviewInputFile(uuid, ext, true) == PreviewInputFile(uuid, ext, false)
  {
  }

  /** `create_preview`: validate, store the upload, create an anonymous
      pending job, and complete it on the spot when it cannot be queued. */
  function CreatePreview(jobs: JobStore, filename: string, size: nat, uuid: string, newId: int,
                         uploaded: bool, queue: QueueOutcome, now: int): (r: (JobStore, Reply<PreviewBody>))
    requires newId !in jobs
    ensures r.1.Refused? ==> r.0 == jobs && r.1.code == 400
    ensures r.1.Refused? <==> ValidatePreview(filename, size).Some?
    ensures r.1.Served? ==> newId in r.0 && r.0 == jobs[newId := r.0[newId]] && r.1.body.jobId == newId
    ensures r.1.Served? ==>
      var j := r.0[newId];
      && j.userEmail == Anonymous && j.targetTriangles == PreviewTarget && !j.isPaid
      && j.inputFile == Some(PreviewInputFile(uuid, FileExtension(filename), uploaded))
      && j.expiresAt == Some(now + Day) && j.createdAt == now
      && j.outputFile.None? && j.errorMessage.None?
      && r.1.body.status == j.status
      && (queue == Queued ==> j.status == Pending && j.previewFile.None? && j.vertexCountBefore.None?)
      && (queue != Queued ==>
            && j.status == Completed
            && j.previewFile == Some(LocalUploadPath(uuid, FileExtension(filename)))
            && j.vertexCountBefore == Some(MockVertexBefore) && j.vertexCountAfter == Some(MockVertexAfter))
      && r.1.body.message == (if j.status == Pending then "Preview generation in progress" else "Preview ready")
  {
    match ValidatePreview(filename, size)
    case Some(rejection) => (jobs, RejectionReply(rejection))
    case None =>
      var ext := FileExtension(filename);
      var job := NewJob(newId, Anonymous, PreviewInputFile(uuid, ext, uploaded), PreviewTarget, false, now + Day, now);
      if queue == Queued then
        (jobs[newId := job], Served(PreviewBody(newId, Pending, "Preview generation in progress")))
      else
        var done := job.(status := Completed, previewFile := Some(LocalUploadPath(uuid, ext)),
                         vertexCountBefore := Some(MockVertexBefore), vertexCountAfter := Some(MockVertexAfter),
                         updatedAt := now);
        (jobs[newId := done], Served(PreviewBody(newId, Completed, "Preview ready")))
  }

  // --------------------------------------------------------------- optimize

  /** The B2 key of a paid upload, under the owner's e-mail. */
  function OptimizeInputKey(email: string, uuid: string, ext: string): string {
    "uploads/" + email + "/" + uuid + ext
  }

  /** The single commit of `optimize_model`: the paid pending job, and one
      credit less for a single-plan user. */
  function Admit(jobs: JobStore, plans: PlanStore, email: string, user: UserPlan, inputKey: string,
                 target: int, newId: int, now: int): (r: (JobStore, PlanStore))
    requires newId !in jobs
    requires user.plan == Single ==> user.quota > 0
    ensures newId in r.0 && r.0 == jobs[newId := r.0[newId]]
    ensures r.0[newId].status == Pending && r.0[newId].isPaid && r.0[newId].userEmail == user.email
    ensures r.0[newId].targetTriangles == target && r.0[newId].inputFile == Some(inputKey)
    ensures r.0[newId].expiresAt == Some(now + Day)
    ensures email in r.1 && r.1 == plans[email := r.1[email]]
    ensures r.1[email].quota == (if user.plan == Single then user.quota - 1 else user.quota)
    ensures user.plan == Single ==> r.1[email].quota >= 0
    ensures r.1[email].plan == user.plan && r.1[email].expiresAt == user.expiresAt
  {
    var job := NewJob(newId, user.email, inputKey, target, true, now + Day, now);
    var charged := if user.plan == Single then user.(quota := user.quota - 1, updatedAt := now) else user;
    (jobs[newId := job], plans[email := charged])
  }

  /** `optimize_model`: gate, validate, upload, then create a paid pending job
      and charge a single-plan user one credit in one commit, then queue. */
  function OptimizeModel(jobs: JobStore, plans: PlanStore, token: Token, filename: string, size: nat,
                         target: int, uuid: string, newId: int, uploaded: bool, queued: bool, now: int)
    : (r: (JobStore, PlanStore, Reply<int>))
    requires newId !in jobs
    ensures GetCurrentUser(plans, token, now).Refused? ==>
              r.0 == jobs && r.1 == plans && SameRefusal(r.2, GetCurrentUser(plans, token, now))
    ensures r.2.Refused? && r.2.code != 500 ==> r.0 == jobs && r.1 == plans
    ensures r.2.Served? ==> queued && uploaded && ValidateOptimize(filename, target, size).None?
    ensures newId in r.0 ==>
      && GetCurrentUser(plans, token, now).Served?
      && var email := token.sub.value;
         var before := plans[email];
         && r.0 == jobs[newId := r.0[newId]]
         && r.0[newId].status == Pending && r.0[newId].isPaid && r.0[newId].userEmail == before.email
         && r.0[newId].targetTriangles == target
         && r.0[newId].inputFile == Some(OptimizeInputKey(before.email, uuid, FileExtension(filename)))
         && email in r.1 && r.1 == plans[email := r.1[email]]
         && r.1[email].quota == (if before.plan == Single then before.quota - 1 else before.quota)
         && (before.plan == Single ==> r.1[email].quota >= 0)
         && r.1[email].plan == before.plan && r.1[email].expiresAt == before.expiresAt
    ensures newId !in r.0 ==> r.0 == jobs && r.1 == plans
    ensures r.2.Served? <==> newId in r.0 && queued
    // past the gate: a rejected upload is refused, a failed storage upload is
    // a server error, and an accepted upload creates the job
    ensures GetCurrentUser(plans, token, now).Served? && ValidateOptimize(filename, target, size).Some? ==>
      r.2 == RejectionReply(ValidateOptimize(filename, target, size).value) && r.0 == jobs && r.1 == plans
    ensures GetCurrentUser(plans, token, now).Served? && ValidateOptimize(filename, target, size).None? && !uploaded ==>
      r.2 == ServerError() && r.0 == jobs && r.1 == plans
    ensures GetCurrentUser(plans, token, now).Served? && ValidateOptimize(filename, target, size).None? && uploaded ==>
      newId in r.0 && r.2 == (if queued then Served(newId) else ServerError())
  {
    match GetCurrentUser(plans, token, now)
    case Refused(code, detail) => (jobs, plans, Refused(code, detail))
    case Served(user) =>
      match ValidateOptimize(filename, target, size)
      case Some(rejection) => (jobs, plans, RejectionReply(rejection))
      case None =>
        if !uploaded then (jobs, plans, ServerError())
        else
          var key := OptimizeInputKey(user.email, uuid, FileExtension(filename));
          var (jobs', plans') := Admit(jobs, plans, token.sub.value, user, key, target, newId, now);
          (jobs', plans', if queued then Served(newId) else ServerError())
  }

  // ----------------------------------------------------------------- status

  /** What the status route learns from outside: whether the preview file
      exists locally, whether copying it into `uploads/` worked, and the
      signed B2 URL if signing worked. */
  datatype PreviewIo = PreviewIo(onDisk: bool, copied: bool, signedUrl: Option<string>)

  datatype StatusBody = StatusBody(status: Status, createdAt: int, counts: Option<(int, int)>,
                                   previewUrl: Option<string>, errorMessage: Option<string>)

  /** The `preview_url` of a completed job. A substring test on `str(Path(p))`
      equals one on `p`, since normalising only drops empty and `.` components
      and cannot join or split the letters of `uploads`. */
  function PreviewUrl(previewFile: Option<string>, io: PreviewIo): (u: string)
    ensures !Truthy(previewFile) ==> u == "#"
    ensures Truthy(previewFile) && io.onDisk && Contains(previewFile.value, "uploads") ==>
              u == "/uploads/" + PathName(previewFile.value)
    ensures Truthy(previewFile) && io.onDisk && !Contains(previewFile.value, "uploads") ==>
              u == (if io.copied then "/uploads/" + PathName(previewFile.value) else "#")
    ensures Truthy(previewFile) && !io.onDisk ==> u == io.signedUrl.GetOr("#")
    ensures u == "#" || io.signedUrl == Some(u) || (Truthy(previewFile) && u == "/uploads/" + PathName(previewFile.value))
  {
    if !Truthy(previewFile) then "#"
    else
      var p := previewFile.value;
      if io.onDisk then
        if IndexOf(p, "uploads").Some? then "/uploads/" + PathName(p)
        else if io.copied then "/uploads/" + PathName(p)
        else "#"
      else
        match io.signedUrl
        case Some(url) => url
        case None => "#"
  }

  /** `get_job_status`. */
  function GetJobStatus(jobs: JobStore, jobId: int, io: PreviewIo): (r: Reply<StatusBody>)
    ensures jobId !in jobs <==> r == Refused(404, "Job not found")
    ensures r.Served? ==> r.body.status == jobs[jobId].status && r.body.createdAt == jobs[jobId].createdAt
    ensures r.Served? && r.body.status == Completed ==>
      && r.body.counts.Some? && r.body.counts.value.0 != 0 && r.body.counts.value.1 != 0
      && r.body.counts.value.0 == OrDefault(jobs[jobId].vertexCountBefore, MockVertexBefore)
      && r.body.counts.value.1 == OrDefault(jobs[jobId].vertexCountAfter, MockVertexAfter)
      && r.body.previewUrl == Some(PreviewUrl(jobs[jobId].previewFile, io))
      && r.body.errorMessage.None?
    ensures r.Served? && r.body.status == Failed ==>
      && r.body.errorMessage.Some? && r.body.errorMessage.value != []
      && (Truthy(jobs[jobId].errorMessage) ==> r.body.errorMessage == jobs[jobId].errorMessage)
      && (!Truthy(jobs[jobId].errorMessage) ==> r.body.errorMessage == Some("Unknown error"))
      && r.body.counts.None? && r.body.previewUrl.None?
    ensures r.Served? && r.body.status in {Pending, Processing} ==>
      r.body.counts.None? && r.body.previewUrl.None? && r.body.errorMessage.None?
  {
    if jobId !in jobs then Refused(404, "Job not found")
    else
      var job := jobs[jobId];
      match job.status
      case Completed =>
        var counts := (OrDefault(job.vertexCountBefore, MockVertexBefore), OrDefault(job.vertexCountAfter, MockVertexAfter));
        Served(StatusBody(Completed, job.createdAt, Some(counts), Some(PreviewUrl(job.previewFile, io)), None))
      case Failed =>
        var message := if Truthy(job.errorMessage) then job.errorMessage.value else "Unknown error";
        Served(StatusBody(Failed, job.createdAt, None, None, Some(message)))
      case _ => Served(StatusBody(job.status, job.createdAt, None, None, None))
  }

  /** The URL a local preview copy is served under. */
  lemma LocalPreviewUrl(uuid: string, ext: string, io: PreviewIo)
    requires io.onDisk && '/' !in uuid && '/' !in ext && |ext| >= 2
    ensures PreviewUrl(Some(LocalUploadPath(uuid, ext)), io) == "/uploads/" + uuid + ext
  {
    var p := LocalUploadPath(uuid, ext);
    assert uuid + ext != [] && uuid + ext != ".";
    NameInDirectory("uploads", uuid + ext);
    assert OccursAt(p, "uploads", 0);
    assert "/uploads/" + (uuid + ext) == "/uploads/" + uuid + ext;
  }

  /** Every allowed extension is a dot and at least three letters. */
  lemma AllowedExtensionLength(filename: string)
    requires ExtensionAllowed(filename)
    ensures |FileExtension(filename)| >= 4
  {
  }

  /** A preview completed on the spot is then reported with the URL of its
      local copy whenever that copy exists. */
  lemma FallbackPreviewServedLocally(jobs: JobStore, filename: string, size: nat, uuid: string, newId: int,
                                     uploaded: bool, queue: QueueOutcome, now: int, io: PreviewIo)
    requires newId !in jobs && queue != Queued && io.onDisk
    requires ValidatePreview(filename, size).None?
    requires '/' !in uuid
    ensures var r := CreatePreview(jobs, filename, size, uuid, newId, uploaded, queue, now);
      GetJobStatus(r.0, newId, io) == Served(StatusBody(Completed, now, Some((MockVertexBefore, MockVertexAfter)),
                                                        Some("/uploads/" + uuid + FileExtension(filename)), None))
  {
    var ext := FileExtension(filename);
    AllowedExtensionLength(filename);
    LocalPreviewUrl(uuid, ext, io);
    var r := CreatePreview(jobs, filename, size, uuid, newId, uploaded, queue, now);
    var j := r.0[newId];
    assert j.status == Completed && j.createdAt == now;
    assert j.previewFile == Some(LocalUploadPath(uuid, ext));
    assert j.vertexCountBefore == Some(MockVertexBefore) && j.vertexCountAfter == Some(MockVertexAfter);
    assert PreviewUrl(j.previewFile, io) == "/uploads/" + uuid + ext;
  }

  // --------------------------------------------------------------- download

  /** The guards of `download_optimized_model` after the gate, in order. */
  function DownloadGuard(jobs: JobStore, jobId: int, email: string): (r: Reply<string>)
    ensures r.Served? <==> jobId in jobs && jobs[jobId].userEmail == email
                           && jobs[jobId].status == Completed && Truthy(jobs[jobId].outputFile)
    ensures r.Served? ==> r.body == jobs[jobId].outputFile.value
    ensures r.Refused? ==> r.code == (if jobId !in jobs then 404
                                      else if jobs[jobId].userEmail != email then 403
                                      else 400)
  {
    if jobId !in jobs then Refused(404, "Job not found")
    else
      var job := jobs[jobId];
      if job.userEmail != email then Refused(403, "You don't have permission to access this job")
      else if job.status != Completed then
        Refused(400, "Job is not ready for download. Current status: " + job.status.Text())
      else if !Truthy(job.outputFile) then Refused(400, "Output file not available")
      else Served(job.outputFile.value)
  }

  /** The route past its gate: a gate refusal or a guard refusal is passed
      on, a released job redirects to its signed URL, and a signing failure
      is an unhandled exception. */
  function DownloadAfterGate(gate: Reply<UserPlan>, jobs: JobStore, jobId: int, signedUrl: Option<string>)
    : (r: Reply<string>)
    ensures gate.Refused? ==> SameRefusal(r, gate)
    ensures gate.Served? && DownloadGuard(jobs, jobId, gate.body.email).Refused? ==>
      SameRefusal(r, DownloadGuard(jobs, jobId, gate.body.email))
    ensures gate.Served? && DownloadGuard(jobs, jobId, gate.body.email).Served? ==>
      r == (if signedUrl.Some? then Served(signedUrl.value) else ServerError())
    ensures r.Served? <==> gate.Served? && DownloadGuard(jobs, jobId, gate.body.email).Served? && signedUrl.Some?
  {
    match gate
    case Refused(code, detail) => Refused(code, detail)
    case Served(user) =>
      match DownloadGuard(jobs, jobId, user.email)
      case Refused(code, detail) => Refused(code, detail)
      case Served(_) =>
        match signedUrl
        case None => ServerError()
        case Some(url) => Served(url)
  }

  /** `download_optimized_model` as written: behind the full gate, so a
      single-plan owner with no credit left is refused the export. */
  function DownloadOptimizedModel(jobs: JobStore, plans: PlanStore, token: Token, jobId: int,
                                  signedUrl: Option<string>, now: int): (r: Reply<string>)
    ensures r.Served? <==>
      && token.Claims? && token.sub.Some? && token.sub.value in plans
      && Entitled(plans[token.sub.value], now)
      && DownloadGuard(jobs, jobId, plans[token.sub.value].email).Served?
      && signedUrl.Some?
    ensures r.Served? ==> r.body == signedUrl.value
    ensures GetCurrentUser(plans, token, now).Refused? ==> SameRefusal(r, GetCurrentUser(plans, token, now))
    ensures GetCurrentUser(plans, token, now).Served? ==>
      var guard := DownloadGuard(jobs, jobId, plans[token.sub.value].email);
      && (guard.Refused? ==> SameRefusal(r, guard))
      && (guard.Served? && signedUrl.None? ==> r == ServerError())
  {
    DownloadAfterGate(GetCurrentUser(plans, token, now), jobs, jobId, signedUrl)
  }

  /** The identity half of the gate: a decodable token whose subject has a
      plan row, whatever the state of the plan. */
  function Identify(plans: PlanStore, token: Token): (r: Reply<UserPlan>)
    ensures r.Served? <==> token.Claims? && token.sub.Some? && token.sub.value in plans
    ensures r.Served? ==> r.body == plans[token.sub.value]
    ensures r.Refused? ==> r.code == (if Presented(token) then 401 else 403)
  {
    match token
    case Undecodable => Refused(401, "Invalid authentication token")
    case Claims(None) => Refused(401, "Invalid authentication credentials")
    case Claims(Some(email)) =>
      if email !in plans then Refused(401, "User not found") else Served(plans[email])
    case _ => BearerRefusal(token)
  }

  /** The full gate is the identity check followed by the plan checks: it
      refuses whatever the identity check refuses, in the same words. */
  lemma GateExtendsIdentify(plans: PlanStore, token: Token, now: int)
    ensures Identify(plans, token).Refused? ==> GetCurrentUser(plans, token, now) == Identify(plans, token)
    ensures GetCurrentUser(plans, token, now).Served? ==> GetCurrentUser(plans, token, now) == Identify(plans, token)
    ensures GetCurrentUser(plans, token, now).Refused? && Identify(plans, token).Served? ==>
      GetCurrentUser(plans, token, now).code == 403
  {
  }

  /** The download with the corrected gate: the export a user has paid for
      stays downloadable by its owner whatever their plan's state. */
  function DownloadPaidExport(jobs: JobStore, plans: PlanStore, token: Token, jobId: int,
                              signedUrl: Option<string>): (r: Reply<string>)
    ensures r.Served? <==>
      && token.Claims? && token.sub.Some? && token.sub.value in plans
      && DownloadGuard(jobs, jobId, plans[token.sub.value].email).Served?
      && signedUrl.Some?
    ensures r.Served? ==> r.body == signedUrl.value
    ensures r.Refused? && r.code != 500 ==> r.code in {400, 401, 403, 404}
    ensures Identify(plans, token).Refused? ==> SameRefusal(r, Identify(plans, token))
  {
    DownloadAfterGate(Identify(plans, token), jobs, jobId, signedUrl)
  }

  /** As written, a single-plan owner who has spent their last credit on a
      job cannot download its output, though the job's guards all pass; the
      corrected route serves it. */
  lemma SpentBuyerLockedOut(jobs: JobStore, plans: PlanStore, email: string, jobId: int, url: string, now: int)
    requires email in plans && plans[email].plan == Single && plans[email].quota == 0
    requires DownloadGuard(jobs, jobId, plans[email].email).Served?
    ensures DownloadOptimizedModel(jobs, plans, Claims(Some(email)), jobId, Some(url), now)
              == Refused(403, "No export credits remaining")
    ensures DownloadPaidExport(jobs, plans, Claims(Some(email)), jobId, Some(url)) == Served(url)
  {
  }

  /** A job the guards release to a known user is served to them by the
      corrected route, and by the route as written exactly when their plan
      passes the full gate. */
  lemma ReleasedJobDownloads(jobs: JobStore, plans: PlanStore, email: string, jobId: int, url: string, now: int)
    requires email in plans && DownloadGuard(jobs, jobId, plans[email].email).Served?
    ensures DownloadPaidExport(jobs, plans, Claims(Some(email)), jobId, Some(url)) == Served(url)
    ensures Entitled(plans[email], now) <==>
              DownloadOptimizedModel(jobs, plans, Claims(Some(email)), jobId, Some(url), now) == Served(url)
  {
  }

  /** Where the full gate admits, the two routes answer alike. */
  lemma DownloadAgreesWhenEntitled(jobs: JobStore, plans: PlanStore, token: Token, jobId: int,
                                   signedUrl: Option<string>, now: int)
    ensures GetCurrentUser(plans, token, now).Served? ==>
      DownloadOptimizedModel(jobs, plans, token, jobId, signedUrl, now) == DownloadPaidExport(jobs, plans, token, jobId, signedUrl)
  {
    GateExtendsIdentify(plans, token, now);
  }
}
