/**
 * The service calls and worker passes, each as one step: what the caller is told and the
 * database it leaves, built from the transactions of module Distribution in source order.
 */
module ServiceCalls {
  import opened Prelude
  import opened Workflow
  import opened Distribution

  datatype Reply<+T> = Reply(db: Db, result: Outcome<T>)

  predicate IsSpace(c: char) {
    c in {' ', '\t', '\n', '\r'}
  }

  /** strings.TrimSpace(s) == "" */
  predicate Blank(s: string) {
    forall i :: 0 <= i < |s| ==> IsSpace(s[i])
  }

  predicate Missing(s: Option<string>) {
    s == None || Blank(s.value)
  }

  // ---------------------------------------------------------------- service/sku.go, service/audit.go

  /** `sku` is the id the table generates. */
  function Create(db: Db, sku: int, code: string, name: string): Reply<()> {
    if code == "" || name == "" || code in db.codes || sku in db.skus then Reply(db, Err(InvalidRequest))
    else Reply(CreateTx(db, sku, code), Ok(()))
  }

  function Transition(db: Db, sku: int, expected: Status, next: Status): Reply<()> {
    if sku !in db.skus then Reply(db, Err(NotFound))
    else if db.skus[sku].status != expected then Reply(db, Err(InvalidTransition))
    else if !CanTransition(expected, next) then Reply(db, Err(InvalidTransition))
    else match MoveTx(db, sku, expected, next)
      case None => Reply(db, Err(InvalidTransition))
      case Some(d) => Reply(d, Ok(()))
  }

  datatype Submission = Submission(action: AuditAction, jobs: seq<Job>)

  function Submit(db: Db, p: SubmitParams, targets: Option<seq<string>>): Reply<Submission> {
    if p.actionId == "" || p.versionId <= 0 || p.hash == "" then Reply(db, Err(InvalidRequest))
    else if p.actionId in db.actions then Reply(db, Ok(Submission(db.actions[p.actionId], [])))
    else match Validate(db, db, p, targets)
      case Err(e) => Reply(db, Err(e))
      case Ok(plan) =>
        match AuditTx(db, p, plan)
        case Err(e) => Reply(db, Err(e))
        case Ok(d) => Reply(d, Ok(Submission(d.actions[p.actionId], plan.jobs)))
  }

  // ---------------------------------------------------------------- service/agent.go

  datatype SyncParams = SyncParams(
    agent: string, code: string, hash: string, headHash: Option<string>, tailHash: Option<string>,
    size: int, stable: bool)

  const ONE_HUNDRED_MB := 100 * 1024 * 1024

  predicate SyncAccepted(p: SyncParams) {
    && p.agent != "" && p.code != "" && p.hash != "" && p.size > 0
    && (p.size > ONE_HUNDRED_MB ==> !Missing(p.headHash) && !Missing(p.tailHash))
  }

  /** AssetVersionRepo.GetCurrentForSKU joins on current_ver_id alone. */
  function NextVersionNum(db: Db, sku: int): int {
    if sku in db.skus && db.skus[sku].current.Some? && VersionRow(db, db.skus[sku].current.value).Some?
    then VersionRow(db, db.skus[sku].current.value).value.num + 1
    else 1
  }

  function Sync(db: Db, p: SyncParams): Reply<int> {
    if !SyncAccepted(p) then Reply(db, Err(InvalidRequest))
    else match ByCode(db, p.code)
      case None => Reply(db, Err(NotFound))
      case Some(sku) => Reply(SyncTx(db, sku, NextVersionNum(db, sku), p.hash, p.stable), Ok(|db.versions| + 1))
  }

  /** The oldest Pending job at or after position i. */
  function FirstPending(jobs: seq<Job>, i: nat): (r: Option<nat>)
    requires i <= |jobs|
    ensures r.Some? ==> i <= r.value < |jobs| && jobs[r.value].status == Pending
    ensures forall k :: i <= k < (if r.Some? then r.value else |jobs|) ==> jobs[k].status != Pending
    decreases |jobs| - i
  {
    if i == |jobs| then None
    else if jobs[i].status == Pending then Some(i)
    else FirstPending(jobs, i + 1)
  }

  predicate ValidLease(lease: Option<int>) {
    lease.Some? && lease.value > 0
  }

  /** `lease` is the job_lease_seconds policy: None when it is invalid; `attempt` is the generated UUID. */
  function Pull(db: Db, now: int, agent: string, lease: Option<int>, attempt: string): Reply<Option<nat>> {
    if Blank(agent) || !ValidLease(lease) then Reply(db, Err(InvalidRequest))
    else match FirstPending(db.jobs, 0)
      case None => Reply(db, Ok(None))
      case Some(j) =>
        if attempt in db.attempts then Reply(db, Err(Internal))
        else
          var d := JobTx(db, j, Claimed(attempt, now + lease.value));
          Reply(OrElse(MoveTx(d, db.jobs[j].sku, Approved, DistributionRunning), d), Ok(Some(j)))
  }

  /** The guards Heartbeat and AckJob share: the job whose current attempt this is. */
  function CurrentJob(db: Db, attempt: string): Outcome<nat> {
    if Blank(attempt) then Err(InvalidRequest)
    else if attempt !in db.attempts || db.attempts[attempt].job >= |db.jobs| then Err(NotFound)
    else if db.jobs[db.attempts[attempt].job].attempt != Some(attempt) then Err(AttemptExpired)
    else Ok(db.attempts[attempt].job)
  }

  function Heartbeat(db: Db, now: int, attempt: string, lease: Option<int>): Reply<int> {
    match CurrentJob(db, attempt)
    case Err(e) => Reply(db, Err(e))
    case Ok(_) =>
      if attempt in db.attempts && db.attempts[attempt].lease < now then Reply(db, Err(AttemptExpired))
      else if !ValidLease(lease) then Reply(db, Err(InvalidRequest))
      else Reply(RenewTx(db, attempt, now + lease.value), Ok(now + lease.value))
  }

  datatype EvidenceLevel = L1 | L2 | L3
  datatype Evidence = Evidence(
    fileId: Option<string>, sizeBytes: Option<int>, cloudPath: Option<string>, shareUrl: Option<string>)

  predicate EvidenceSatisfied(required: EvidenceLevel, ev: Option<Evidence>) {
    ev.Some? && match required
    case L1 => ev.value.fileId.Some? && ev.value.sizeBytes.Some?
    case L2 => ev.value.cloudPath.Some? && ev.value.sizeBytes.Some?
    case L3 => ev.value.shareUrl.Some?
  }

  datatype AckParams = AckParams(attempt: string, success: bool, evidence: Option<Evidence>)

  predicate AckSucceeds(p: AckParams) {
    p.success && EvidenceSatisfied(L1, p.evidence)
  }

  predicate SkuCompleted(jobs: seq<Job>, sku: int) {
    && (exists i :: 0 <= i < |jobs| && jobs[i].sku == sku)
    && forall i :: 0 <= i < |jobs| && jobs[i].sku == sku ==> jobs[i].status == Done
  }

  predicate AnyVerifying(jobs: seq<Job>, sku: int) {
    exists i :: 0 <= i < |jobs| && jobs[i].sku == sku && jobs[i].verify == Verifying
  }

  /** The gate before a SKU is completed: it has a job, all are Done and none is Verifying. */
  predicate GateOpen(jobs: seq<Job>, sku: int) {
    SkuCompleted(jobs, sku) && !AnyVerifying(jobs, sku)
  }

  function TryComplete(db: Db, sku: int): Reply<()> {
    if !GateOpen(db.jobs, sku) then Reply(db, Ok(()))
    else match MoveTx(db, sku, DistributionRunning, Completed)
      case None => Reply(db, Err(InvalidTransition))
      case Some(d) => Reply(d, Ok(()))
  }

  /** Committed on its own, while the acknowledging transaction is still open. */
  function AskVerify(db: Db, j: nat, verifyOn: set<string>): (d: Db)
    requires j < |db.jobs|
    ensures |d.jobs| == |db.jobs|
  {
    if db.jobs[j].target in verifyOn then JobTx(db, j, VerifyAsked) else db
  }

  /** `verifyOn` holds the targets with verify_on_done; the policy engine's default is none. */
  function Ack(db: Db, p: AckParams, verifyOn: set<string>): Reply<()> {
    match CurrentJob(db, p.attempt)
    case Err(e) => Reply(db, Err(e))
    case Ok(j) =>
      if j >= |db.jobs| then Reply(db, Err(NotFound))
      else if AckSucceeds(p) then
        TryComplete(JobTx(AskVerify(db, j, verifyOn), j, Finished(p.attempt)), db.jobs[j].sku)
      else
        Reply(JobTx(db, j, Flunked(p.attempt)), Ok(()))
  }

  // ---------------------------------------------------------------- service/incident.go

  function Assign(db: Db, i: nat, reason: string): Reply<()> {
    if Blank(reason) then Reply(db, Err(InvalidRequest))
    else if i >= |db.incidents| then Reply(db, Err(NotFound))
    else if db.incidents[i].status != Open && db.incidents[i].status != InProgress
    then Reply(db, Err(InvalidTransition))
    else Reply(IncidentTx(db, i, InProgress, IncidentAssigned(i)), Ok(()))
  }

  function Resolve(db: Db, i: nat, reason: string): Reply<()> {
    if Blank(reason) then Reply(db, Err(InvalidRequest))
    else if i >= |db.incidents| then Reply(db, Err(NotFound))
    else if db.incidents[i].status != InProgress then Reply(db, Err(InvalidTransition))
    else Reply(IncidentTx(db, i, Resolved, IncidentResolved(i)), Ok(()))
  }

  // ---------------------------------------------------------------- workers, one row per pass

  function Reap(db: Db, now: int, j: nat): Db {
    if j < |db.jobs| && db.jobs[j].status == Running && db.jobs[j].attempt.Some?
       && db.jobs[j].attempt.value in db.attempts && db.attempts[db.jobs[j].attempt.value].lease < now
    then JobTx(db, j, Reaped)
    else db
  }

  function Retry(db: Db, j: nat): Db {
    if j < |db.jobs| && db.jobs[j].status in {Fail, Stale} then
      JobTx(db, j, if db.jobs[j].retries < db.jobs[j].maxRetries then Retried else Exhausted)
    else db
  }

  function Verify(db: Db, j: nat, passed: bool): Db {
    if j < |db.jobs| && db.jobs[j].verify == Verifying then
      if passed then PassTx(db, j) else JobTx(db, j, Denied)
    else db
  }

  /** Jobs of an approved SKU leave PendingVerify; no service in the repository does this. */
  function Release(db: Db, j: nat): Db {
    if j < |db.jobs| && db.jobs[j].status == PendingVerify then JobTx(db, j, Released) else db
  }

  /** AssetVersionRepo.MarkStable and UpdateExistsState: content columns never change. */
  function Mark(db: Db, id: nat, stable: bool, missing: bool): Db {
    if id < |db.versions| then
      db.(versions := db.versions[id := db.versions[id].(stable := stable, missing := missing)])
    else db
  }

  // ---------------------------------------------------------------- runs of whole calls

  datatype Call =
    | CreateCall(sku: int, code: string, name: string)
    | TransitionCall(sku: int, expected: Status, next: Status)
    | SubmitCall(submit: SubmitParams, targets: Option<seq<string>>)
    | SyncCall(sync: SyncParams)
    | PullCall(agent: string, lease: Option<int>, attempt: string)
    | HeartbeatCall(beat: string, renewal: Option<int>)
    | AckCall(ack: AckParams)
    | AssignCall(incident: nat, reason: string)
    | ResolveCall(incident: nat, reason: string)
    | ReapPass(job: nat)
    | RetryPass(job: nat)
    | VerifyPass(job: nat, passed: bool)
    | ReleaseJobs(job: nat)
    | MarkCall(version: nat, stable: bool, missing: bool)

  /** A call and the clock reading it sees. */
  datatype Timed = Timed(now: int, call: Call)

  function Perform(db: Db, verifyOn: set<string>, t: Timed): Db {
    match t.call
    case CreateCall(sku, code, name) => Create(db, sku, code, name).db
    case TransitionCall(sku, expected, next) => Transition(db, sku, expected, next).db
    case SubmitCall(p, targets) => Submit(db, p, targets).db
    case SyncCall(p) => Sync(db, p).db
    case PullCall(agent, lease, attempt) => Pull(db, t.now, agent, lease, attempt).db
    case HeartbeatCall(attempt, lease) => Heartbeat(db, t.now, attempt, lease).db
    case AckCall(p) => Ack(db, p, verifyOn).db
    case AssignCall(i, reason) => Assign(db, i, reason).db
    case ResolveCall(i, reason) => Resolve(db, i, reason).db
    case ReapPass(j) => Reap(db, t.now, j)
    case RetryPass(j) => Retry(db, j)
    case VerifyPass(j, passed) => Verify(db, j, passed)
    case ReleaseJobs(j) => Release(db, j)
    case MarkCall(id, stable, missing) => Mark(db, id, stable, missing)
  }

  function PerformAll(db: Db, verifyOn: set<string>, run: seq<Timed>): Db
    decreases |run|
  {
    if run == [] then db else PerformAll(Perform(db, verifyOn, run[0]), verifyOn, run[1..])
  }

  lemma {:induction false} PerformAppend(db: Db, verifyOn: set<string>, a: seq<Timed>, b: seq<Timed>)
    ensures PerformAll(db, verifyOn, a + b) == PerformAll(PerformAll(db, verifyOn, a), verifyOn, b)
    decreases |a|
  {
    if a == [] {
      assert a + b == b;
    } else {
      assert (a + b)[1..] == a[1..] + b;
      PerformAppend(Perform(db, verifyOn, a[0]), verifyOn, a[1..], b);
    }
  }

  /** The direct transition is accepted. */
  predicate Accepts(db: Db, k: int, expected: Status, next: Status) {
    k in db.skus && db.skus[k].status == expected && CanTransition(expected, next)
  }

  /** A direct transition is its CAS with its event when accepted, and nothing otherwise. */
  lemma TransitionIsMove(db: Db, k: int, expected: Status, next: Status)
    ensures Transition(db, k, expected, next).db ==
            if Accepts(db, k, expected, next) then OrElse(MoveTx(db, k, expected, next), db) else db
  {
  }

  /** A call that is its own single transaction, or none. */
  lemma OneTx(db: Db, tx: Tx)
    requires Enabled(db, tx)
    ensures EnabledAll(db, [tx]) && ExecAll(db, [tx]) == Exec(db, tx)
  {
    assert [tx][1..] == [];
  }

  lemma TwoTxs(db: Db, a: Tx, b: Tx)
    requires Enabled(db, a) && Enabled(Exec(db, a), b)
    ensures EnabledAll(db, [a, b]) && ExecAll(db, [a, b]) == Exec(Exec(db, a), b)
  {
    OneTx(Exec(db, a), b);
    assert [a, b][1..] == [b];
  }

  lemma ThenTx(db: Db, txs: seq<Tx>, tx: Tx)
    requires EnabledAll(db, txs) && Enabled(ExecAll(db, txs), tx)
    ensures EnabledAll(db, txs + [tx]) && ExecAll(db, txs + [tx]) == Exec(ExecAll(db, txs), tx)
    decreases |txs|
  {
    if txs == [] {
      OneTx(db, tx);
      assert txs + [tx] == [tx];
    } else {
      ThenTx(Exec(db, txs[0]), txs[1..], tx);
      assert (txs + [tx])[1..] == txs[1..] + [tx];
    }
  }

  function AskTxs(db: Db, j: nat, verifyOn: set<string>): seq<Tx>
    requires j < |db.jobs|
  {
    if db.jobs[j].target in verifyOn then [ChangeJob(j, VerifyAsked)] else []
  }

  lemma AskIsRun(db: Db, j: nat, verifyOn: set<string>)
    requires j < |db.jobs|
    ensures EnabledAll(db, AskTxs(db, j, verifyOn))
    ensures ExecAll(db, AskTxs(db, j, verifyOn)) == AskVerify(db, j, verifyOn)
  {
    if db.jobs[j].target in verifyOn {
      OneTx(db, ChangeJob(j, VerifyAsked));
    }
  }

  function FinishTxs(db: Db, j: nat, attempt: string, verifyOn: set<string>): seq<Tx>
    requires j < |db.jobs|
  {
    AskTxs(db, j, verifyOn) + [ChangeJob(j, Finished(attempt))]
  }

  lemma FinishIsRun(db: Db, j: nat, attempt: string, verifyOn: set<string>)
    requires j < |db.jobs|
    ensures EnabledAll(db, FinishTxs(db, j, attempt, verifyOn))
    ensures ExecAll(db, FinishTxs(db, j, attempt, verifyOn)) == JobTx(AskVerify(db, j, verifyOn), j, Finished(attempt))
  {
    AskIsRun(db, j, verifyOn);
    ThenTx(db, AskTxs(db, j, verifyOn), ChangeJob(j, Finished(attempt)));
  }

  lemma TryCompleteIsTx(db: Db, sku: int)
    ensures TryComplete(db, sku).db == if GateOpen(db.jobs, sku) then Exec(db, CompleteSku(sku)) else db
  {
  }

  /** A success ack: the verification request, the job transaction and, when the gate is open, the completing one. */
  function DoneTxs(db: Db, j: nat, attempt: string, verifyOn: set<string>): seq<Tx>
    requires j < |db.jobs|
  {
    var txs, sku := FinishTxs(db, j, attempt, verifyOn), db.jobs[j].sku;
    var done := JobTx(AskVerify(db, j, verifyOn), j, Finished(attempt));
    if GateOpen(done.jobs, sku) then txs + [CompleteSku(sku)] else txs
  }

  lemma DoneIsRun(db: Db, j: nat, attempt: string, verifyOn: set<string>)
    requires j < |db.jobs|
    ensures EnabledAll(db, DoneTxs(db, j, attempt, verifyOn))
    ensures ExecAll(db, DoneTxs(db, j, attempt, verifyOn)) ==
            TryComplete(JobTx(AskVerify(db, j, verifyOn), j, Finished(attempt)), db.jobs[j].sku).db
  {
    FinishIsRun(db, j, attempt, verifyOn);
    var done, sku := JobTx(AskVerify(db, j, verifyOn), j, Finished(attempt)), db.jobs[j].sku;
    TryCompleteIsTx(done, sku);
    ThenTx(db, FinishTxs(db, j, attempt, verifyOn), CompleteSku(sku));
  }

  function AckTxs(db: Db, p: AckParams, verifyOn: set<string>): seq<Tx> {
    match CurrentJob(db, p.attempt)
    case Err(_) => []
    case Ok(j) =>
      if j >= |db.jobs| then []
      else if AckSucceeds(p) then DoneTxs(db, j, p.attempt, verifyOn)
      else [ChangeJob(j, Flunked(p.attempt))]
  }

  /** An ack is the transactions of its branch: those of a success, or the one that fails the job. */
  lemma AckIsRun(db: Db, p: AckParams, verifyOn: set<string>)
    ensures EnabledAll(db, AckTxs(db, p, verifyOn))
    ensures ExecAll(db, AckTxs(db, p, verifyOn)) == Ack(db, p, verifyOn).db
  {
    var r := CurrentJob(db, p.attempt);
    if r.Ok? {
      if AckSucceeds(p) {
        DoneIsRun(db, r.value, p.attempt, verifyOn);
      } else {
        OneTx(db, ChangeJob(r.value, Flunked(p.attempt)));
      }
    }
  }

  function PullTxs(db: Db, now: int, agent: string, lease: Option<int>, attempt: string): seq<Tx> {
    var j := FirstPending(db.jobs, 0);
    if Blank(agent) || !ValidLease(lease) || j.None? || attempt in db.attempts then []
    else [ChangeJob(j.value, Claimed(attempt, now + lease.value)), StartDistribution(db.jobs[j.value].sku)]
  }

  /** A pull is the claim of the first pending job and the CAS of its SKU to Distribution_Running. */
  lemma PullIsRun(db: Db, now: int, agent: string, lease: Option<int>, attempt: string)
    ensures EnabledAll(db, PullTxs(db, now, agent, lease, attempt))
    ensures ExecAll(db, PullTxs(db, now, agent, lease, attempt)) == Pull(db, now, agent, lease, attempt).db
  {
    var txs := PullTxs(db, now, agent, lease, attempt);
    if txs != [] {
      TwoTxs(db, txs[0], txs[1]);
    }
  }

  function SubmitTxs(db: Db, p: SubmitParams, targets: Option<seq<string>>): seq<Tx> {
    var v := Validate(db, db, p, targets);
    if p.actionId == "" || p.versionId <= 0 || p.hash == "" || p.actionId in db.actions || v.Err? then []
    else [CommitAudit(p, v.value)]
  }

  /** A submission is one audit transaction on the plan validated in the same state, or none. */
  lemma SubmitIsRun(db: Db, p: SubmitParams, targets: Option<seq<string>>)
    ensures EnabledAll(db, SubmitTxs(db, p, targets))
    ensures ExecAll(db, SubmitTxs(db, p, targets)) == Submit(db, p, targets).db
  {
    var txs := SubmitTxs(db, p, targets);
    if txs != [] {
      assert Validated(p, Validate(db, db, p, targets).value);
      OneTx(db, txs[0]);
    }
  }

  /** The transaction of a call that has at most one. */
  function SingleTx(db: Db, t: Timed): Option<Tx> {
    match t.call
    case CreateCall(sku, code, _) => Some(CreateSku(sku, code))
    case TransitionCall(sku, expected, next) => Some(CommitTransition(sku, expected, next))
    case SyncCall(p) =>
      var sku := ByCode(db, p.code);
      if sku.Some? then Some(AddVersion(sku.value, NextVersionNum(db, sku.value), p.hash, p.stable)) else None
    case HeartbeatCall(a, lease) => if lease.Some? then Some(RenewLease(a, t.now + lease.value)) else None
    case AssignCall(i, _) => Some(SetIncident(i, InProgress, IncidentAssigned(i)))
    case ResolveCall(i, _) => Some(SetIncident(i, Resolved, IncidentResolved(i)))
    case ReapPass(j) => Some(ChangeJob(j, Reaped))
    case RetryPass(j) =>
      Some(ChangeJob(j, if j < |db.jobs| && db.jobs[j].retries < db.jobs[j].maxRetries then Retried else Exhausted))
    case VerifyPass(j, passed) => Some(if passed then PassVerify(j) else ChangeJob(j, Denied))
    case ReleaseJobs(j) => Some(ChangeJob(j, Released))
    case MarkCall(id, stable, missing) => Some(MarkVersion(id, stable, missing))
    case _ => None
  }

  ghost predicate RunsSingleTx(db: Db, verifyOn: set<string>, t: Timed) {
    var d := Perform(db, verifyOn, t);
    var tx := SingleTx(db, t);
    d == db || (tx.Some? && Enabled(db, tx.value) && d == Exec(db, tx.value))
  }

  lemma WorkerRuns(db: Db, verifyOn: set<string>, t: Timed)
    requires t.call.ReapPass? || t.call.RetryPass? || t.call.VerifyPass? || t.call.ReleaseJobs?
    ensures RunsSingleTx(db, verifyOn, t)
  {
  }

  lemma ServiceRuns(db: Db, verifyOn: set<string>, t: Timed)
    requires t.call.CreateCall? || t.call.TransitionCall? || t.call.SyncCall? || t.call.HeartbeatCall?
    ensures RunsSingleTx(db, verifyOn, t)
  {
  }

  lemma RowRuns(db: Db, verifyOn: set<string>, t: Timed)
    requires t.call.AssignCall? || t.call.ResolveCall? || t.call.MarkCall?
    ensures RunsSingleTx(db, verifyOn, t)
  {
  }

  /** The transactions a call makes, in order. */
  function CallTxs(db: Db, verifyOn: set<string>, t: Timed): seq<Tx> {
    match t.call
    case SubmitCall(p, targets) => SubmitTxs(db, p, targets)
    case PullCall(agent, lease, attempt) => PullTxs(db, t.now, agent, lease, attempt)
    case AckCall(p) => AckTxs(db, p, verifyOn)
    case _ =>
      var tx := SingleTx(db, t);
      if tx.None? || Perform(db, verifyOn, t) == db then [] else [tx.value]
  }

  /** Every whole call is the run of its transactions, so all that holds of interleavings holds of calls. */
  lemma CallIsRun(db: Db, verifyOn: set<string>, t: Timed)
    ensures EnabledAll(db, CallTxs(db, verifyOn, t))
    ensures ExecAll(db, CallTxs(db, verifyOn, t)) == Perform(db, verifyOn, t)
  {
    match t.call
    case SubmitCall(p, targets) => SubmitIsRun(db, p, targets);
    case PullCall(agent, lease, attempt) => PullIsRun(db, t.now, agent, lease, attempt);
    case AckCall(p) => AckIsRun(db, p, verifyOn);
    case _ =>
      if t.call.ReapPass? || t.call.RetryPass? || t.call.VerifyPass? || t.call.ReleaseJobs? {
        WorkerRuns(db, verifyOn, t);
      } else if t.call.AssignCall? || t.call.ResolveCall? || t.call.MarkCall? {
        RowRuns(db, verifyOn, t);
      } else {
        ServiceRuns(db, verifyOn, t);
      }
      if Perform(db, verifyOn, t) != db {
        OneTx(db, SingleTx(db, t).value);
      }
  }
}
