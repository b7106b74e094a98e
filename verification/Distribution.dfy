/**
 * The SKU audit and distribution tables, and every transaction that writes them:
 * service/sku.go, service/audit.go, service/agent.go, service/incident.go and the
 * three workers. A transaction is a function from database to database; a rolled-back
 * transaction returns the database it was given.
 */
module Distribution {
  import opened Prelude
  import opened Workflow

  // ---------------------------------------------------------------- tables

  datatype AuditStage = StageA | StageB | UnknownStage
  datatype AuditDecision = Approve | Reject | UnknownDecision
  datatype JobStatus = PendingVerify | Pending | Running | Done | Fail | Stale | ExceededRetries | JobCancelled
  datatype VerifyStatus = NotRequested | Verifying | Verified | VerifyFailed
  datatype IncidentStatus = Open | InProgress | Resolved | Closed

  /** `current` is the id of the current version; version ids count from 1. */
  datatype Sku = Sku(status: Status, current: Option<int>)
  datatype Version = Version(sku: int, num: int, hash: string, stable: bool, missing: bool)
  datatype AuditAction = AuditAction(version: int, stage: AuditStage, decision: AuditDecision, hash: string)
  datatype Job = Job(
    key: string, action: string, sku: int, version: int, target: string,
    status: JobStatus, verify: VerifyStatus, retries: nat, maxRetries: nat, attempt: Option<string>)
  datatype Attempt = Attempt(job: nat, lease: int, acked: bool)
  datatype Incident = Incident(sku: int, job: nat, status: IncidentStatus)

  datatype Event =
    | SkuCreated
    | StatusChanged(edge: Edge)
    | VersionCreated(num: int)
    | VersionStable(num: int)
    | AuditSubmitted(action: string)
    | JobCreated(key: string)
    | JobRunning(job: nat, attempt: string)
    | JobDone(job: nat)
    | JobFailed(job: nat)
    | JobStale(job: nat)
    | JobRetrying(job: nat)
    | JobExceeded(job: nat)
    | VerifyPassed(job: nat)
    | VerifyDenied(job: nat)
    | IncidentCreated(incident: nat)
    | IncidentAssigned(incident: nat)
    | IncidentResolved(incident: nat)

  /** One event_logs row; its per-SKU sequence number is its rank among the rows of its SKU. */
  datatype Entry = Entry(sku: int, event: Event)

  /** Append-only tables are sequences and their row ids are positions. */
  datatype Db = Db(
    skus: map<int, Sku>,
    codes: map<string, int>,   // the unique index on sku_code
    versions: seq<Version>,
    actions: map<string, AuditAction>,
    jobs: seq<Job>,
    attempts: map<string, Attempt>,
    incidents: seq<Incident>,
    events: seq<Entry>)

  const EMPTY := Db(map[], map[], [], map[], [], map[], [], [])

  function VersionRow(db: Db, id: int): Option<Version> {
    if 1 <= id <= |db.versions| then Some(db.versions[id - 1]) else None
  }

  /** EventRepo.Append for several events of one SKU, in order. */
  function Stamp(sku: int, events: seq<Event>): seq<Entry> {
    seq(|events|, i requires 0 <= i < |events| => Entry(sku, events[i]))
  }

  function Log(db: Db, sku: int, events: seq<Event>): Db {
    db.(events := db.events + Stamp(sku, events))
  }

  /** SKURepo.CASWorkflowStatus: None when no row matches the id and the expected status. */
  function Cas(skus: map<int, Sku>, id: int, expected: Status, next: Status): Option<map<int, Sku>> {
    if id in skus && skus[id].status == expected then
      Some(skus[id := skus[id].(status := next)])
    else
      None
  }

  /** SKURepo.Create with its event; the unique index refuses a code that is taken. */
  function CreateTx(db: Db, sku: int, code: string): Db {
    if code in db.codes then db
    else Log(db.(skus := db.skus[sku := Sku(Draft, None)], codes := db.codes[code := sku]), sku, [SkuCreated])
  }

  /** SKURepo.GetBySKUCode. */
  function ByCode(db: Db, code: string): Option<int> {
    if code in db.codes && db.codes[code] in db.skus then Some(db.codes[code]) else None
  }

  // ---------------------------------------------------------------- audit submission

  datatype SubmitParams = SubmitParams(
    actionId: string, versionId: int, hash: string, stage: AuditStage, decision: AuditDecision)

  datatype AppError =
    | InvalidRequest
    | NotFound
    | VersionConflict
    | HashMismatch
    | AssetNotStable
    | AssetMissing
    | InvalidTransition
    | DuplicateAudit
    | AttemptExpired
    | Internal

  type Outcome<+T> = Result<T, AppError>

  /** What the validation phase of Submit carries into its transaction. */
  datatype Plan = Plan(sku: int, from: Status, next: Status, jobs: seq<Job>)

  function ExpectedNext(stage: AuditStage, decision: AuditDecision): Outcome<Status> {
    match (stage, decision)
    case (StageA, Approve) => Ok(AuditAApproved)
    case (StageA, Reject) => Ok(AuditARejected)
    case (StageB, Approve) => Ok(AuditBApproved)
    case (StageB, Reject) => Ok(AuditBRejected)
    case _ => Err(InvalidRequest)
  }

  function IdempotentKey(action: string, target: string): string {
    action + ":" + target
  }

  function NewJob(p: SubmitParams, sku: int, target: string): Job {
    Job(IdempotentKey(p.actionId, target), p.actionId, sku, p.versionId, target,
        PendingVerify, NotRequested, 0, 3, None)
  }

  function NewJobs(p: SubmitParams, sku: int, targets: seq<string>): seq<Job> {
    seq(|targets|, i requires 0 <= i < |targets| => NewJob(p, sku, targets[i]))
  }

  /**
   * Phase 1 of Submit. The version row and the SKU row are separate reads, so each may
   * come from a different moment: `atVersion` and `atSku` are the databases they saw.
   * `targets` is the distribution_targets policy; None when it is missing or malformed.
   */
  function Validate(atVersion: Db, atSku: Db, p: SubmitParams, targets: Option<seq<string>>): Outcome<Plan> {
    match VersionRow(atVersion, p.versionId)
    case None => Err(NotFound)
    case Some(ver) =>
      if ver.sku !in atSku.skus then Err(NotFound)
      else
        var sku := atSku.skus[ver.sku];
        if sku.current != Some(p.versionId) then Err(VersionConflict)
        else if ver.hash != p.hash then Err(HashMismatch)
        else if !ver.stable then Err(AssetNotStable)
        else if ver.missing then Err(AssetMissing)
        else match ExpectedNext(p.stage, p.decision)
          case Err(e) => Err(e)
          case Ok(next) =>
            if !CanTransition(sku.status, next) then Err(InvalidTransition)
            else if next != AuditBApproved then Ok(Plan(ver.sku, sku.status, next, []))
            else if targets == None || targets.value == [] then Err(InvalidRequest)
            else Ok(Plan(ver.sku, sku.status, next, NewJobs(p, ver.sku, targets.value)))
  }

  /** AuditRepo.InsertIdempotent: None is ErrDuplicateAuditStage. */
  function InsertAction(actions: map<string, AuditAction>, id: string, a: AuditAction)
    : Option<map<string, AuditAction>>
  {
    if id in actions then Some(actions)
    else if exists x :: x in actions && actions[x].version == a.version && actions[x].stage == a.stage then None
    else Some(actions[id := a])
  }

  predicate KeyTaken(jobs: seq<Job>, key: string) {
    exists i :: 0 <= i < |jobs| && jobs[i].key == key
  }

  /** JobRepo.CreateBatch: INSERT IGNORE, row by row, on the unique idempotent key. */
  function Enqueue(jobs: seq<Job>, batch: seq<Job>): seq<Job>
    decreases |batch|
  {
    if batch == [] then jobs
    else Enqueue(if KeyTaken(jobs, batch[0].key) then jobs else jobs + [batch[0]], batch[1..])
  }

  function CreatedEvents(jobs: seq<Job>): seq<Event> {
    seq(|jobs|, i requires 0 <= i < |jobs| => JobCreated(jobs[i].key))
  }

  function ActionOf(p: SubmitParams): AuditAction {
    AuditAction(p.versionId, p.stage, p.decision, p.hash)
  }

  /** The status the transaction leaves: stage B approval makes two hops. */
  function Landing(next: Status): Status {
    if next == AuditBApproved then ApprovedPendingVerify else next
  }

  function AuditEvents(p: SubmitParams, plan: Plan): seq<Event> {
    if plan.next == AuditBApproved then
      [AuditSubmitted(p.actionId)] + CreatedEvents(plan.jobs) +
      [StatusChanged(Edge(plan.from, AuditBApproved)), StatusChanged(Edge(AuditBApproved, ApprovedPendingVerify))]
    else
      [AuditSubmitted(p.actionId), StatusChanged(Edge(plan.from, plan.next))]
  }

  /** Phase 2 of Submit: the transaction, or the reason it rolled back. */
  function AuditTx(db: Db, p: SubmitParams, plan: Plan): Outcome<Db> {
    if Cas(db.skus, plan.sku, plan.from, plan.next) == None then Err(InvalidTransition)
    else match InsertAction(db.actions, p.actionId, ActionOf(p))
      case None => Err(DuplicateAudit)
      case Some(actions) =>
        Ok(Log(db.(
          skus := db.skus[plan.sku := db.skus[plan.sku].(status := Landing(plan.next))],
          actions := actions,
          jobs := if plan.next == AuditBApproved then Enqueue(db.jobs, plan.jobs) else db.jobs),
          plan.sku, AuditEvents(p, plan)))
  }

  // ---------------------------------------------------------------- one-hop status moves

  /** A CAS with its sku.status_changed event; None when the CAS misses. */
  function MoveTx(db: Db, sku: int, from: Status, to: Status): Option<Db> {
    match Cas(db.skus, sku, from, to)
    case None => None
    case Some(skus) => Some(Log(db.(skus := skus), sku, [StatusChanged(Edge(from, to))]))
  }

  function OrElse(r: Option<Db>, db: Db): Db {
    if r.Some? then r.value else db
  }

  // ---------------------------------------------------------------- jobs and attempts

  /** The ways a transaction writes one job row. */
  datatype JobChange =
    | Claimed(attempt: string, lease: int)       // JobRepo.PullPending
    | VerifyAsked                                // JobRepo.UpdateVerifyStatus, a statement of its own
    | Finished(attempt: string)                  // AckJob, success branch
    | Flunked(attempt: string)                   // AckJob, failure branch
    | Reaped                                     // LeaseReaper
    | Retried                                    // RetryScheduler.markRetrying
    | Exhausted                                  // RetryScheduler.markExceeded
    | Denied                                     // VerifyWorker.markVerifyFailed
    | Released                                   // PendingVerify to Pending

  function NewRow(row: Job, c: JobChange): Job {
    match c
    case Claimed(a, _) => row.(status := Running, attempt := Some(a))
    case VerifyAsked => row.(verify := Verifying)
    case Finished(_) => row.(status := Done)
    case Flunked(_) => row.(status := Fail)
    case Reaped => row.(status := Stale, attempt := None)
    case Retried => row.(status := Pending, retries := row.retries + 1)
    case Exhausted => row.(status := ExceededRetries)
    case Denied => row.(verify := VerifyFailed)
    case Released => row.(status := Pending)
  }

  function Acked(attempts: map<string, Attempt>, a: string): map<string, Attempt> {
    if a in attempts then attempts[a := attempts[a].(acked := true)] else attempts
  }

  function NewAttempts(attempts: map<string, Attempt>, j: nat, c: JobChange): map<string, Attempt> {
    match c
    case Claimed(a, lease) => attempts[a := Attempt(j, lease, false)]
    case Finished(a) => Acked(attempts, a)
    case Flunked(a) => Acked(attempts, a)
    case _ => attempts
  }

  predicate OpensIncident(c: JobChange) {
    c.Flunked? || c.Exhausted? || c.Denied?
  }

  /** What is logged for job j; `incident` is the id the next incident gets. */
  function ChangeEvents(j: nat, c: JobChange, incident: nat): seq<Event> {
    match c
    case Claimed(a, _) => [JobRunning(j, a)]
    case VerifyAsked => []
    case Finished(_) => [JobDone(j)]
    case Flunked(_) => [JobFailed(j), IncidentCreated(incident)]
    case Reaped => [JobStale(j)]
    case Retried => [JobRetrying(j)]
    case Exhausted => [JobExceeded(j), IncidentCreated(incident)]
    case Denied => [VerifyDenied(j), IncidentCreated(incident)]
    case Released => []
  }

  function JobTx(db: Db, j: nat, c: JobChange): Db
    requires j < |db.jobs|
  {
    Log(db.(jobs := db.jobs[j := NewRow(db.jobs[j], c)],
            attempts := NewAttempts(db.attempts, j, c),
            incidents := if OpensIncident(c) then db.incidents + [Incident(db.jobs[j].sku, j, Open)] else db.incidents),
        db.jobs[j].sku, ChangeEvents(j, c, |db.incidents|))
  }

  function RenewTx(db: Db, attempt: string, lease: int): Db {
    if attempt in db.attempts then
      db.(attempts := db.attempts[attempt := db.attempts[attempt].(lease := lease)])
    else
      db
  }

  /** VerifyWorker.allSiblingJobsDoneAndVerified. */
  predicate SiblingsVerified(jobs: seq<Job>, sku: int) {
    && (exists i :: 0 <= i < |jobs| && jobs[i].sku == sku)
    && forall i :: 0 <= i < |jobs| && jobs[i].sku == sku ==>
         jobs[i].status == Done && jobs[i].verify in {Verified, NotRequested}
  }

  /** VerifyWorker.markVerifyPassed: completes the SKU in the same transaction when it can. */
  function PassTx(db: Db, j: nat): Db
    requires j < |db.jobs|
  {
    var sku := db.jobs[j].sku;
    var d := db.(jobs := db.jobs[j := db.jobs[j].(verify := Verified)]);
    var d' := if SiblingsVerified(d.jobs, sku) then OrElse(MoveTx(d, sku, DistributionRunning, Completed), d) else d;
    Log(d', sku, [VerifyPassed(j)])
  }

  // ---------------------------------------------------------------- versions and incidents

  function SyncTx(db: Db, sku: int, num: int, hash: string, stable: bool): Db
    requires sku in db.skus
  {
    Log(db.(versions := db.versions + [Version(sku, num, hash, stable, false)],
            skus := db.skus[sku := db.skus[sku].(current := Some(|db.versions| + 1))]),
        sku, [if stable then VersionStable(num) else VersionCreated(num)])
  }

  function IncidentTx(db: Db, i: nat, status: IncidentStatus, event: Event): Db
    requires i < |db.incidents|
  {
    Log(db.(incidents := db.incidents[i := db.incidents[i].(status := status)]), db.incidents[i].sku, [event])
  }

  // ---------------------------------------------------------------- the interleaved machine

  /**
   * Every transaction of the system, with the values its caller read beforehand. The
   * reads may be arbitrarily stale, so a transaction is constrained only by what its own
   * statements test and by what its caller is known to have validated at some time.
   */
  datatype Tx =
    | CreateSku(sku: int, code: string)
    | CommitAudit(p: SubmitParams, plan: Plan)
    | CommitTransition(sku: int, from: Status, to: Status)
    | StartDistribution(sku: int)
    | ChangeJob(job: nat, change: JobChange)
    | CompleteSku(sku: int)
    | RenewLease(attempt: string, lease: int)
    | PassVerify(job: nat)
    | AddVersion(sku: int, num: int, hash: string, stable: bool)
    | MarkVersion(id: nat, stable: bool, missing: bool)
    | SetIncident(incident: nat, status: IncidentStatus, event: Event)

  /** The validation phase of some Submit, on some pair of snapshots, produced this plan. */
  ghost predicate Validated(p: SubmitParams, plan: Plan) {
    exists atVersion: Db, atSku: Db, targets: Option<seq<string>> ::
      Validate(atVersion, atSku, p, targets) == Ok(plan)
  }

  ghost predicate Enabled(db: Db, tx: Tx) {
    match tx
    case CreateSku(sku, _) => sku !in db.skus
    case CommitAudit(p, plan) => Validated(p, plan)
    case CommitTransition(_, from, to) => CanTransition(from, to)
    case ChangeJob(j, c) =>
      && j < |db.jobs|
      && (c.Claimed? ==> db.jobs[j].status == Pending && c.attempt !in db.attempts)
    case PassVerify(j) => j < |db.jobs|
    case AddVersion(sku, _, _, _) => sku in db.skus
    case MarkVersion(id, _, _) => id < |db.versions|
    case SetIncident(i, _, event) => i < |db.incidents| && !event.StatusChanged?
    case _ => true
  }

  ghost function Exec(db: Db, tx: Tx): Db
    requires Enabled(db, tx)
  {
    match tx
    case CreateSku(sku, code) => CreateTx(db, sku, code)
    case CommitAudit(p, plan) => var r := AuditTx(db, p, plan); if r.Ok? then r.value else db
    case CommitTransition(sku, from, to) => OrElse(MoveTx(db, sku, from, to), db)
    case StartDistribution(sku) => OrElse(MoveTx(db, sku, Approved, DistributionRunning), db)
    case ChangeJob(j, c) => JobTx(db, j, c)
    case CompleteSku(sku) => OrElse(MoveTx(db, sku, DistributionRunning, Completed), db)
    case RenewLease(attempt, lease) => RenewTx(db, attempt, lease)
    case PassVerify(j) => PassTx(db, j)
    case AddVersion(sku, num, hash, stable) => SyncTx(db, sku, num, hash, stable)
    case MarkVersion(id, stable, missing) =>
      db.(versions := db.versions[id := db.versions[id].(stable := stable, missing := missing)])
    case SetIncident(i, status, event) => IncidentTx(db, i, status, event)
  }

  /** Transactions run one after another, each on the database the others left. */
  ghost predicate EnabledAll(db: Db, txs: seq<Tx>)
    decreases |txs|
  {
    txs == [] || (Enabled(db, txs[0]) && EnabledAll(Exec(db, txs[0]), txs[1..]))
  }

  ghost function ExecAll(db: Db, txs: seq<Tx>): Db
    requires EnabledAll(db, txs)
    decreases |txs|
  {
    if txs == [] then db else ExecAll(Exec(db, txs[0]), txs[1..])
  }
}
