/** The two persisted records, `OptimizationJob` and `UserPlan`, with their
    column defaults. Timestamps are whole seconds; a nullable column is an
    `Option`. */
module Models {
  import opened Maybe

  /** The four values the code writes into `OptimizationJob.status`. */
  datatype Status = Pending | Processing | Completed | Failed {
    function Text(): (t: string)
      ensures |t| > 0
    {
      match this
      case Pending => "pending"
      case Processing => "processing"
      case Completed => "completed"
      case Failed => "failed"
    }
  }

  /** The stored texts tell the four states apart. */
  lemma StatusTextInjective(a: Status, b: Status)
    ensures a.Text() == b.Text() <==> a == b
  {
  }

  /** One optimization request. */
  datatype JobRecord = JobRecord(
    id: int,
    userEmail: string,
    inputFile: Option<string>,
    outputFile: Option<string>,
    previewFile: Option<string>,
    targetTriangles: int,
    status: Status,
    errorMessage: Option<string>,
    vertexCountBefore: Option<int>,
    vertexCountAfter: Option<int>,
    isPaid: bool,
    createdAt: int,
    updatedAt: int,
    expiresAt: Option<int>)

  /** The values of `UserPlan.plan` the code writes. */
  datatype Plan = Single | Creator

  /** A customer's entitlement. */
  datatype UserPlan = UserPlan(
    email: string,
    plan: Plan,
    quota: int,
    expiresAt: Option<int>,
    createdAt: int,
    updatedAt: int)

  /** Jobs by primary key; customers' plans by e-mail (the column is unique). */
  type JobStore = map<int, JobRecord>
  type PlanStore = map<string, UserPlan>

  const Hour := 3600
  const Day := 24 * Hour

  /** The placeholder counts written when no real probe ran. */
  const MockVertexBefore := 100000
  const MockVertexAfter := 10000

  /** Python truthiness of a nullable string column: set and non-empty. */
  predicate Truthy(s: Option<string>) {
    s.Some? && s.value != []
  }

  /** Python's `x or d` on a nullable integer column: `None` and 0 give `d`. */
  function OrDefault(x: Option<int>, d: int): (r: int)
    ensures x.Some? && x.value != 0 ==> r == x.value
    ensures x.None? || x.value == 0 ==> r == d
  {
    if x.Some? && x.value != 0 then x.value else d
  }

  /** A new `OptimizationJob` row: the columns the constructor call leaves out take their defaults. */
  function NewJob(id: int, userEmail: string, inputFile: string, targetTriangles: int,
                  isPaid: bool, expiresAt: int, now: int): (j: JobRecord)
    ensures j.id == id && j.userEmail == userEmail && j.inputFile == Some(inputFile)
    ensures j.targetTriangles == targetTriangles && j.isPaid == isPaid && j.expiresAt == Some(expiresAt)
    ensures j.status == Pending
    ensures j.outputFile.None? && j.previewFile.None? && j.errorMessage.None?
    ensures j.vertexCountBefore.None? && j.vertexCountAfter.None?
    ensures j.createdAt == now && j.updatedAt == now
  {
    JobRecord(id, userEmail, Some(inputFile), None, None, targetTriangles, Pending, None,
              None, None, isPaid, now, now, Some(expiresAt))
  }

  /** A new `UserPlan` row as the database stores it: plan `single`, quota 0, no expiry. */
  function NewPlan(email: string, now: int): (u: UserPlan)
    ensures u.email == email && u.plan == Single && u.quota == 0 && u.expiresAt.None?
    ensures u.createdAt == now && u.updatedAt == now
  {
    UserPlan(email, Single, 0, None, now, now)
  }
}
