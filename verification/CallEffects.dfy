/**
 * What each call answers and leaves, row by row: when it is accepted, which refusal it gives
 * otherwise, and every table afterwards. Nothing here is said through the transactions or the
 * helper functions the calls are built from.
 */
module CallEffects {
  import opened Prelude
  import opened Workflow
  import opened Distribution
  import opened ServiceCalls
  import J = JobSafety

  /** Blank means white space throughout. */
  lemma BlankMeans(s: string)
    ensures Blank(s) <==> forall i :: 0 <= i < |s| ==> s[i] == ' ' || s[i] == '\t' || s[i] == '\n' || s[i] == '\r'
  {
  }

  // ---------------------------------------------------------------- SKUs

  lemma CreateEffect(db: Db, sku: int, code: string, name: string)
    ensures Create(db, sku, code, name) ==
            if code != "" && name != "" && code !in db.codes && sku !in db.skus
            then Reply(db.(skus := db.skus[sku := Sku(Draft, None)], codes := db.codes[code := sku],
                           events := db.events + [Entry(sku, SkuCreated)]), Ok(()))
            else Reply(db, Err(InvalidRequest))
  {
  }

  lemma TransitionEffect(db: Db, k: int, expected: Status, next: Status)
    ensures Transition(db, k, expected, next) ==
            if k !in db.skus then Reply(db, Err(NotFound))
            else if db.skus[k].status != expected || !CanTransition(expected, next)
            then Reply(db, Err(InvalidTransition))
            else Reply(db.(skus := db.skus[k := Sku(next, db.skus[k].current)],
                           events := db.events + [Entry(k, StatusChanged(Edge(expected, next)))]), Ok(()))
  {
    assert Stamp(k, [StatusChanged(Edge(expected, next))]) == [Entry(k, StatusChanged(Edge(expected, next)))];
    TransitionIsMove(db, k, expected, next);
  }

  // ---------------------------------------------------------------- audit submission

  /** The status the stage is decided in. */
  function Awaits(stage: AuditStage): Option<Status> {
    match stage
    case StageA => Some(AuditAPending)
    case StageB => Some(AuditBPending)
    case UnknownStage => None
  }

  /** The version, its SKU and its content are as the auditor saw them, and the SKU awaits this stage. */
  ghost predicate Submittable(db: Db, p: SubmitParams, targets: Option<seq<string>>) {
    && 1 <= p.versionId <= |db.versions|
    && var ver := db.versions[p.versionId - 1];
    && ver.sku in db.skus && db.skus[ver.sku].current == Some(p.versionId)
    && ver.hash == p.hash && ver.stable && !ver.missing
    && Awaits(p.stage) == Some(db.skus[ver.sku].status)
    && (p.decision == Approve || p.decision == Reject)
    && (p.stage == StageB && p.decision == Approve ==> targets.Some? && targets.value != [])
  }

  ghost predicate StageDecided(db: Db, p: SubmitParams) {
    exists x :: x in db.actions && db.actions[x].version == p.versionId && db.actions[x].stage == p.stage
  }

  /** A new action is accepted exactly when its form is complete, its facts hold, and its stage is undecided. */
  lemma SubmitAcceptedIff(db: Db, p: SubmitParams, targets: Option<seq<string>>)
    requires p.actionId !in db.actions
    ensures Submit(db, p, targets).result.Ok? <==>
              p.actionId != "" && p.hash != "" && Submittable(db, p, targets) && !StageDecided(db, p)
  {
    var v := Validate(db, db, p, targets);
    if v.Ok? {
      AwaitedMoves(p.stage, p.decision, v.value.from);
    } else if Submittable(db, p, targets) {
      AwaitedMoves(p.stage, p.decision, db.skus[db.versions[p.versionId - 1].sku].status);
    }
  }

  /** A decision is an allowed move exactly from the status that awaits its stage. */
  lemma AwaitedMoves(stage: AuditStage, decision: AuditDecision, from: Status)
    ensures var next := ExpectedNext(stage, decision);
            next.Ok? && CanTransition(from, next.value) <==>
              Awaits(stage) == Some(from) && (decision == Approve || decision == Reject)
  {
  }

  /** The refusal is that of the first check that fails. */
  lemma SubmitRefusal(db: Db, p: SubmitParams, targets: Option<seq<string>>)
    requires p.actionId !in db.actions && Submit(db, p, targets).result.Err?
    ensures Submit(db, p, targets).db == db
    ensures var e := Submit(db, p, targets).result.error;
            if p.actionId == "" || p.versionId <= 0 || p.hash == "" then e == InvalidRequest
            else if p.versionId > |db.versions| || db.versions[p.versionId - 1].sku !in db.skus then e == NotFound
            else
              var ver := db.versions[p.versionId - 1];
              var sku := db.skus[ver.sku];
              if sku.current != Some(p.versionId) then e == VersionConflict
              else if ver.hash != p.hash then e == HashMismatch
              else if !ver.stable then e == AssetNotStable
              else if ver.missing then e == AssetMissing
              else if p.stage == UnknownStage || p.decision == UnknownDecision then e == InvalidRequest
              else if Awaits(p.stage) != Some(sku.status) then e == InvalidTransition
              else if p.stage == StageB && p.decision == Approve && (targets.None? || targets.value == [])
              then e == InvalidRequest
              else e == DuplicateAudit
  {
    if 1 <= p.versionId <= |db.versions| && db.versions[p.versionId - 1].sku in db.skus {
      AwaitedMoves(p.stage, p.decision, db.skus[db.versions[p.versionId - 1].sku].status);
    }
  }

  /** A repeated action id is answered with the action on record, whatever else is submitted under it. */
  lemma SubmitRepeat(db: Db, p: SubmitParams, targets: Option<seq<string>>)
    requires p.actionId in db.actions
    ensures Submit(db, p, targets) ==
            if p.actionId == "" || p.versionId <= 0 || p.hash == "" then Reply(db, Err(InvalidRequest))
            else Reply(db, Ok(Submission(db.actions[p.actionId], [])))
  {
  }

  /** Where a decision leaves the SKU. */
  ghost predicate LeavesAt(p: SubmitParams, status: Status) {
    && (status == AuditAApproved <==> p.stage == StageA && p.decision == Approve)
    && (status == AuditARejected <==> p.stage == StageA && p.decision == Reject)
    && (status == ApprovedPendingVerify <==> p.stage == StageB && p.decision == Approve)
    && (status == AuditBRejected <==> p.stage == StageB && p.decision == Reject)
  }

  /**
   * The decision leaves its SKU at the status of that decision, whatever else the SKU row holds, and no
   * other SKU or table touched but the action under its id and, on the last approval, the jobs.
   */
  ghost predicate Decides(db: Db, p: SubmitParams, d: Db) {
    && 1 <= p.versionId <= |db.versions|
    && var k := db.versions[p.versionId - 1].sku;
    && k in db.skus && k in d.skus && LeavesAt(p, d.skus[k].status)
    && d.skus == db.skus[k := Sku(d.skus[k].status, db.skus[k].current)]
    && d.actions == db.actions[p.actionId := AuditAction(p.versionId, p.stage, p.decision, p.hash)]
    && d.codes == db.codes && d.versions == db.versions && d.attempts == db.attempts
    && d.incidents == db.incidents
  }

  lemma SubmitEffect(db: Db, p: SubmitParams, targets: Option<seq<string>>)
    requires p.actionId !in db.actions && Submit(db, p, targets).result.Ok?
    ensures Submittable(db, p, targets) && Decides(db, p, Submit(db, p, targets).db)
    ensures Submit(db, p, targets).result.value.action == AuditAction(p.versionId, p.stage, p.decision, p.hash)
  {
    SubmitAcceptedIff(db, p, targets);
  }

  /** A job as an approval creates it. */
  function Fresh(p: SubmitParams, sku: int, target: string): Job {
    Job(p.actionId + ":" + target, p.actionId, sku, p.versionId, target, PendingVerify, NotRequested, 0, 3, None)
  }

  lemma AcceptedPlan(db: Db, p: SubmitParams, targets: Option<seq<string>>) returns (plan: Plan)
    requires p.actionId !in db.actions && Submit(db, p, targets).result.Ok?
    ensures Submittable(db, p, targets)
    ensures plan.sku == db.versions[p.versionId - 1].sku && plan.from == db.skus[plan.sku].status
    ensures plan.next == AuditBApproved <==> p.stage == StageB && p.decision == Approve
    ensures plan.next != AuditBApproved ==> plan.jobs == []
    ensures plan.next == AuditBApproved ==> targets.Some? && plan.jobs == NewJobs(p, plan.sku, targets.value)
    ensures AuditTx(db, p, plan) == Ok(Submit(db, p, targets).db)
    ensures Submit(db, p, targets).result.value.jobs == plan.jobs
  {
    SubmitAcceptedIff(db, p, targets);
    plan := Validate(db, db, p, targets).value;
  }

  /** Only the last approval creates jobs, and it reports one per target, in order. */
  lemma SubmitReports(db: Db, p: SubmitParams, targets: Option<seq<string>>)
    requires p.actionId !in db.actions && Submit(db, p, targets).result.Ok?
    ensures Submittable(db, p, targets)
    ensures var r, k := Submit(db, p, targets), db.versions[p.versionId - 1].sku;
            if p.stage == StageB && p.decision == Approve then
              && |r.result.value.jobs| == |targets.value|
              && (forall i :: 0 <= i < |targets.value| ==> r.result.value.jobs[i] == Fresh(p, k, targets.value[i]))
              && r.db.jobs == Enqueue(db.jobs, r.result.value.jobs)
            else r.result.value.jobs == [] && r.db.jobs == db.jobs
  {
    var plan := AcceptedPlan(db, p, targets);
    assert AuditTx(db, p, plan).value.jobs ==
           if plan.next == AuditBApproved then Enqueue(db.jobs, plan.jobs) else db.jobs;
  }

  lemma KeyStaysFree(jobs: seq<Job>, row: Job, key: string)
    requires !KeyTaken(jobs, key) && row.key != key
    ensures !KeyTaken(jobs + [row], key)
  {
    var all := jobs + [row];
    if i :| 0 <= i < |all| && all[i].key == key {
      assert i < |jobs| && jobs[i].key == key;
    }
  }

  /** Rows with new and distinct keys are all inserted, in order. */
  lemma {:induction false} NewKeysAllInserted(jobs: seq<Job>, batch: seq<Job>)
    requires forall i :: 0 <= i < |batch| ==> !KeyTaken(jobs, batch[i].key)
    requires forall i, j :: 0 <= i < j < |batch| ==> batch[i].key != batch[j].key
    ensures Enqueue(jobs, batch) == jobs + batch
    decreases |batch|
  {
    if batch != [] {
      var jobs', rest := jobs + [batch[0]], batch[1..];
      forall i | 0 <= i < |rest| ensures !KeyTaken(jobs', rest[i].key) {
        assert rest[i] == batch[i + 1];
        KeyStaysFree(jobs, batch[0], rest[i].key);
      }
      NewKeysAllInserted(jobs', rest);
      assert batch == [batch[0]] + rest;
    }
  }

  /** The log gains, for SKU k: the action, a line per job reported, and each hop of the status. */
  ghost predicate LogsDecision(db: Db, p: SubmitParams, k: int, d: Db, jobs: seq<Job>) {
    var n, last := |db.events|, p.stage == StageB && p.decision == Approve;
    && k in db.skus && k in d.skus
    && |d.events| == n + 1 + |jobs| + (if last then 2 else 1)
    && d.events[..n] == db.events
    && d.events[n] == Entry(k, AuditSubmitted(p.actionId))
    && (forall i :: 0 <= i < |jobs| ==> d.events[n + 1 + i] == Entry(k, JobCreated(jobs[i].key)))
    && (if last then
          && d.events[n + 1 + |jobs|] == Entry(k, StatusChanged(Edge(db.skus[k].status, AuditBApproved)))
          && d.events[n + 2 + |jobs|] == Entry(k, StatusChanged(Edge(AuditBApproved, ApprovedPendingVerify)))
        else
          d.events[n + 1 + |jobs|] == Entry(k, StatusChanged(Edge(db.skus[k].status, d.skus[k].status))))
  }

  lemma PlanLogs(db: Db, p: SubmitParams, plan: Plan)
    requires AuditTx(db, p, plan).Ok? && plan.sku in db.skus && plan.from == db.skus[plan.sku].status
    requires plan.next == AuditBApproved <==> p.stage == StageB && p.decision == Approve
    requires plan.next != AuditBApproved ==> plan.jobs == []
    ensures LogsDecision(db, p, plan.sku, AuditTx(db, p, plan).value, plan.jobs)
  {
    var d, es := AuditTx(db, p, plan).value, AuditEvents(p, plan);
    assert d.events == db.events + Stamp(plan.sku, es);
    assert forall i :: 0 <= i < |es| ==> d.events[|db.events| + i] == Entry(plan.sku, es[i]);
    forall i | 0 <= i < |plan.jobs|
      ensures d.events[|db.events| + 1 + i] == Entry(plan.sku, JobCreated(plan.jobs[i].key))
    {
      assert es[1 + i] == JobCreated(plan.jobs[i].key);
      assert d.events[|db.events| + (1 + i)] == Entry(plan.sku, es[1 + i]);
    }
  }

  lemma SubmitLogs(db: Db, p: SubmitParams, targets: Option<seq<string>>)
    requires p.actionId !in db.actions && Submit(db, p, targets).result.Ok?
    ensures Submittable(db, p, targets)
    ensures var r := Submit(db, p, targets);
            LogsDecision(db, p, db.versions[p.versionId - 1].sku, r.db, r.result.value.jobs)
  {
    var plan := AcceptedPlan(db, p, targets);
    PlanLogs(db, p, plan);
  }

  // ---------------------------------------------------------------- versions

  lemma SyncEffect(db: Db, p: SyncParams)
    ensures Sync(db, p) ==
            if p.agent == "" || p.code == "" || p.hash == "" || p.size <= 0
               || (p.size > 104857600 &&
                   (p.headHash.None? || Blank(p.headHash.value) || p.tailHash.None? || Blank(p.tailHash.value)))
            then Reply(db, Err(InvalidRequest))
            else if p.code !in db.codes || db.codes[p.code] !in db.skus then Reply(db, Err(NotFound))
            else
              var k := db.codes[p.code];
              var current := db.skus[k].current;
              var num := if current.Some? && 1 <= current.value <= |db.versions|
                         then db.versions[current.value - 1].num + 1 else 1;
              Reply(db.(versions := db.versions + [Version(k, num, p.hash, p.stable, false)],
                        skus := db.skus[k := Sku(db.skus[k].status, Some(|db.versions| + 1))],
                        events := db.events + [Entry(k, if p.stable then VersionStable(num) else VersionCreated(num))]),
                    Ok(|db.versions| + 1))
  {
    if p.code in db.codes {
      var num := NextVersionNum(db, db.codes[p.code]);
      var e := if p.stable then VersionStable(num) else VersionCreated(num);
      assert Stamp(db.codes[p.code], [e]) == [Entry(db.codes[p.code], e)];
    }
  }

  lemma MarkEffect(db: Db, id: nat, stable: bool, missing: bool)
    ensures Mark(db, id, stable, missing) ==
            if id >= |db.versions| then db
            else
              var v := db.versions[id];
              db.(versions := db.versions[id := Version(v.sku, v.num, v.hash, stable, missing)])
  {
  }

  // ---------------------------------------------------------------- pulling and keeping a job

  /** Position j holds the first Pending job. */
  ghost predicate FirstPendingAt(jobs: seq<Job>, j: nat) {
    j < |jobs| && jobs[j].status == Pending && forall i :: 0 <= i < j ==> jobs[i].status != Pending
  }

  lemma PullRefusal(db: Db, now: int, agent: string, lease: Option<int>, attempt: string)
    ensures Blank(agent) || lease.None? || lease.value <= 0 ==>
              Pull(db, now, agent, lease, attempt) == Reply(db, Err(InvalidRequest))
    ensures !Blank(agent) && lease.Some? && lease.value > 0
            && (forall j :: 0 <= j < |db.jobs| ==> db.jobs[j].status != Pending) ==>
              Pull(db, now, agent, lease, attempt) == Reply(db, Ok(None))
  {
  }

  /** The first Pending job runs on the new attempt until its lease ends, and an Approved SKU is in distribution. */
  lemma PullEffect(db: Db, now: int, agent: string, lease: Option<int>, attempt: string, j: nat)
    requires !Blank(agent) && lease.Some? && lease.value > 0 && FirstPendingAt(db.jobs, j)
    ensures var k := db.jobs[j].sku;
            var d := db.(jobs := db.jobs[j := db.jobs[j].(status := Running, attempt := Some(attempt))],
                         attempts := db.attempts[attempt := Attempt(j, now + lease.value, false)],
                         events := db.events + [Entry(k, JobRunning(j, attempt))]);
            Pull(db, now, agent, lease, attempt) ==
            if attempt in db.attempts then Reply(db, Err(Internal))
            else if k in db.skus && db.skus[k].status == Approved then
              Reply(d.(skus := db.skus[k := Sku(DistributionRunning, db.skus[k].current)],
                       events := d.events + [Entry(k, StatusChanged(Edge(Approved, DistributionRunning)))]),
                    Ok(Some(j)))
            else Reply(d, Ok(Some(j)))
  {
    assert FirstPending(db.jobs, 0) == Some(j);
    var k := db.jobs[j].sku;
    assert Stamp(k, [JobRunning(j, attempt)]) == [Entry(k, JobRunning(j, attempt))];
    var e := StatusChanged(Edge(Approved, DistributionRunning));
    assert Stamp(k, [e]) == [Entry(k, e)];
  }

  /** The attempt is the one its job is now running on. */
  ghost predicate CurrentFor(db: Db, attempt: string, j: nat) {
    && !Blank(attempt) && attempt in db.attempts && db.attempts[attempt].job == j
    && j < |db.jobs| && db.jobs[j].attempt == Some(attempt)
  }

  /** Why an attempt is turned away before anything else is looked at. */
  ghost predicate TurnedAway(db: Db, attempt: string, e: AppError) {
    if Blank(attempt) then e == InvalidRequest
    else if attempt !in db.attempts || db.attempts[attempt].job >= |db.jobs| then e == NotFound
    else e == AttemptExpired
  }

  /** Only a current attempt whose lease has not ended is renewed, and then to end a lease from now. */
  lemma HeartbeatEffect(db: Db, now: int, attempt: string, lease: Option<int>)
    ensures var r := Heartbeat(db, now, attempt, lease);
            if exists j :: CurrentFor(db, attempt, j) then
              if db.attempts[attempt].lease < now then r == Reply(db, Err(AttemptExpired))
              else if lease.None? || lease.value <= 0 then r == Reply(db, Err(InvalidRequest))
              else
                && r.db == db.(attempts := db.attempts[attempt := db.attempts[attempt].(lease := now + lease.value)])
                && r.result == Ok(now + lease.value)
            else r.db == db && r.result.Err? && TurnedAway(db, attempt, r.result.error)
  {
    if attempt in db.attempts {
      assert CurrentJob(db, attempt).Ok? <==> CurrentFor(db, attempt, db.attempts[attempt].job);
    }
  }

  // ---------------------------------------------------------------- acknowledging a job

  /** Each evidence level and what it takes. */
  lemma EvidenceLevels(ev: Option<Evidence>)
    ensures EvidenceSatisfied(L1, ev) <==> ev.Some? && ev.value.fileId.Some? && ev.value.sizeBytes.Some?
    ensures EvidenceSatisfied(L2, ev) <==> ev.Some? && ev.value.cloudPath.Some? && ev.value.sizeBytes.Some?
    ensures EvidenceSatisfied(L3, ev) <==> ev.Some? && ev.value.shareUrl.Some?
  {
  }

  /** The ack reports success and carries a file id and a size. */
  ghost predicate Suffices(p: AckParams) {
    p.success && p.evidence.Some? && p.evidence.value.fileId.Some? && p.evidence.value.sizeBytes.Some?
  }

  lemma AckRefusal(db: Db, p: AckParams, verifyOn: set<string>)
    requires !exists j :: CurrentFor(db, p.attempt, j)
    ensures var r := Ack(db, p, verifyOn); r.db == db && r.result.Err? && TurnedAway(db, p.attempt, r.result.error)
  {
    if p.attempt in db.attempts {
      assert CurrentJob(db, p.attempt).Ok? <==> CurrentFor(db, p.attempt, db.attempts[p.attempt].job);
    }
  }

  /**
   * An ack on the current attempt leaves its job Done if and only if it suffices, and otherwise
   * Fail with one more incident, open and naming the job.
   */
  lemma AckOutcome(db: Db, p: AckParams, verifyOn: set<string>, j: nat)
    requires CurrentFor(db, p.attempt, j)
    ensures var d := Ack(db, p, verifyOn).db;
            && |d.jobs| == |db.jobs|
            && d.jobs[j].status == (if Suffices(p) then Done else Fail)
            && d.incidents == (if Suffices(p) then db.incidents else db.incidents + [Incident(db.jobs[j].sku, j, Open)])
  {
    assert CurrentJob(db, p.attempt) == Ok(j);
    if Suffices(p) {
      var asked := AskVerify(db, j, verifyOn);
      var done := JobTx(asked, j, Finished(p.attempt));
      assert Ack(db, p, verifyOn) == TryComplete(done, db.jobs[j].sku);
      TryKeeps(done, db.jobs[j].sku);
    }
  }

  lemma TryKeeps(db: Db, sku: int)
    ensures var d := TryComplete(db, sku).db; d.jobs == db.jobs && d.incidents == db.incidents
  {
  }

  lemma AckFailure(db: Db, p: AckParams, verifyOn: set<string>, j: nat)
    requires CurrentFor(db, p.attempt, j) && !Suffices(p)
    ensures var k, i := db.jobs[j].sku, |db.incidents|;
            Ack(db, p, verifyOn) ==
            Reply(db.(jobs := db.jobs[j := db.jobs[j].(status := Fail)],
                      attempts := db.attempts[p.attempt := db.attempts[p.attempt].(acked := true)],
                      incidents := db.incidents + [Incident(k, j, Open)],
                      events := db.events + [Entry(k, JobFailed(j)), Entry(k, IncidentCreated(i))]), Ok(()))
  {
    assert CurrentJob(db, p.attempt) == Ok(j);
    var k, i := db.jobs[j].sku, |db.incidents|;
    assert Stamp(k, [JobFailed(j), IncidentCreated(i)]) == [Entry(k, JobFailed(j)), Entry(k, IncidentCreated(i))];
  }

  /** The tables after the job is done and before completion is tried. */
  function JobFinished(db: Db, j: nat, attempt: string, verify: bool): Db
    requires j < |db.jobs| && attempt in db.attempts
  {
    db.(jobs := db.jobs[j := db.jobs[j].(status := Done, verify := if verify then Verifying else db.jobs[j].verify)],
        attempts := db.attempts[attempt := db.attempts[attempt].(acked := true)],
        events := db.events + [Entry(db.jobs[j].sku, JobDone(j))])
  }

  /** Every job of the SKU is Done and none is being verified. */
  ghost predicate AllFinished(jobs: seq<Job>, k: int) {
    forall i :: 0 <= i < |jobs| && jobs[i].sku == k ==> jobs[i].status == Done && jobs[i].verify != Verifying
  }

  lemma FinishedIs(db: Db, j: nat, attempt: string, verifyOn: set<string>)
    requires j < |db.jobs| && attempt in db.attempts
    ensures JobTx(AskVerify(db, j, verifyOn), j, Finished(attempt)) ==
            JobFinished(db, j, attempt, db.jobs[j].target in verifyOn)
  {
    var asked := AskVerify(db, j, verifyOn);
    assert asked.events == db.events;
    assert Stamp(db.jobs[j].sku, [JobDone(j)]) == [Entry(db.jobs[j].sku, JobDone(j))];
    assert asked.attempts == db.attempts;
    assert JobTx(asked, j, Finished(attempt)).jobs == JobFinished(db, j, attempt, db.jobs[j].target in verifyOn).jobs;
  }

  /** A sufficient ack finishes its job, and completes the SKU when that was the last one; a missed move is reported. */
  lemma AckSuccess(db: Db, p: AckParams, verifyOn: set<string>, j: nat)
    requires CurrentFor(db, p.attempt, j) && Suffices(p)
    ensures var k := db.jobs[j].sku;
            var d := JobFinished(db, j, p.attempt, db.jobs[j].target in verifyOn);
            Ack(db, p, verifyOn) ==
            if !AllFinished(d.jobs, k) then Reply(d, Ok(()))
            else if k !in db.skus || db.skus[k].status != DistributionRunning then Reply(d, Err(InvalidTransition))
            else Reply(d.(skus := db.skus[k := Sku(Completed, db.skus[k].current)],
                          events := d.events + [Entry(k, StatusChanged(Edge(DistributionRunning, Completed)))]), Ok(()))
  {
    assert CurrentJob(db, p.attempt) == Ok(j);
    var k := db.jobs[j].sku;
    var d := JobFinished(db, j, p.attempt, db.jobs[j].target in verifyOn);
    FinishedIs(db, j, p.attempt, verifyOn);
    assert Ack(db, p, verifyOn) == TryComplete(d, k);
    assert d.jobs[j].sku == k;
    TryCompleteEffect(d, k);
  }

  lemma TryCompleteEffect(db: Db, k: int)
    requires exists i :: 0 <= i < |db.jobs| && db.jobs[i].sku == k
    ensures TryComplete(db, k) ==
            if !AllFinished(db.jobs, k) then Reply(db, Ok(()))
            else if k !in db.skus || db.skus[k].status != DistributionRunning then Reply(db, Err(InvalidTransition))
            else Reply(db.(skus := db.skus[k := Sku(Completed, db.skus[k].current)],
                           events := db.events + [Entry(k, StatusChanged(Edge(DistributionRunning, Completed)))]),
                       Ok(()))
  {
    var e := StatusChanged(Edge(DistributionRunning, Completed));
    assert Stamp(k, [e]) == [Entry(k, e)];
    assert GateOpen(db.jobs, k) <==> AllFinished(db.jobs, k);
  }

  // ---------------------------------------------------------------- incidents

  lemma AssignEffect(db: Db, i: nat, reason: string)
    ensures Assign(db, i, reason) ==
            if Blank(reason) then Reply(db, Err(InvalidRequest))
            else if i >= |db.incidents| then Reply(db, Err(NotFound))
            else if db.incidents[i].status == Resolved || db.incidents[i].status == Closed
            then Reply(db, Err(InvalidTransition))
            else Reply(db.(incidents := db.incidents[i := db.incidents[i].(status := InProgress)],
                           events := db.events + [Entry(db.incidents[i].sku, IncidentAssigned(i))]), Ok(()))
  {
    if i < |db.incidents| {
      assert Stamp(db.incidents[i].sku, [IncidentAssigned(i)]) == [Entry(db.incidents[i].sku, IncidentAssigned(i))];
    }
  }

  lemma ResolveEffect(db: Db, i: nat, reason: string)
    ensures Resolve(db, i, reason) ==
            if Blank(reason) then Reply(db, Err(InvalidRequest))
            else if i >= |db.incidents| then Reply(db, Err(NotFound))
            else if db.incidents[i].status != InProgress then Reply(db, Err(InvalidTransition))
            else Reply(db.(incidents := db.incidents[i := db.incidents[i].(status := Resolved)],
                           events := db.events + [Entry(db.incidents[i].sku, IncidentResolved(i))]), Ok(()))
  {
    if i < |db.incidents| {
      assert Stamp(db.incidents[i].sku, [IncidentResolved(i)]) == [Entry(db.incidents[i].sku, IncidentResolved(i))];
    }
  }

  // ---------------------------------------------------------------- workers

  /** A running job whose attempt's lease has ended goes Stale without an attempt; no other row is touched. */
  lemma ReapEffect(db: Db, now: int, j: nat)
    ensures Reap(db, now, j) ==
            if j < |db.jobs| && db.jobs[j].status == Running && db.jobs[j].attempt.Some?
               && db.jobs[j].attempt.value in db.attempts && db.attempts[db.jobs[j].attempt.value].lease < now
            then db.(jobs := db.jobs[j := db.jobs[j].(status := Stale, attempt := None)],
                     events := db.events + [Entry(db.jobs[j].sku, JobStale(j))])
            else db
  {
    if j < |db.jobs| {
      assert Stamp(db.jobs[j].sku, [JobStale(j)]) == [Entry(db.jobs[j].sku, JobStale(j))];
    }
  }

  /** A failed or stale job goes back to Pending while it has retries left, and is given up with an incident after. */
  lemma RetryEffect(db: Db, j: nat)
    ensures Retry(db, j) ==
            if j >= |db.jobs| || (db.jobs[j].status != Fail && db.jobs[j].status != Stale) then db
            else
              var row, i := db.jobs[j], |db.incidents|;
              if row.retries < row.maxRetries then
                db.(jobs := db.jobs[j := row.(status := Pending, retries := row.retries + 1)],
                    events := db.events + [Entry(row.sku, JobRetrying(j))])
              else
                db.(jobs := db.jobs[j := row.(status := ExceededRetries)],
                    incidents := db.incidents + [Incident(row.sku, j, Open)],
                    events := db.events + [Entry(row.sku, JobExceeded(j)), Entry(row.sku, IncidentCreated(i))])
  {
    if j < |db.jobs| {
      var k, i := db.jobs[j].sku, |db.incidents|;
      assert Stamp(k, [JobRetrying(j)]) == [Entry(k, JobRetrying(j))];
      assert Stamp(k, [JobExceeded(j), IncidentCreated(i)]) == [Entry(k, JobExceeded(j)), Entry(k, IncidentCreated(i))];
    }
  }

  /** A failed verification is marked and opens an incident. */
  lemma DenyEffect(db: Db, j: nat)
    ensures Verify(db, j, false) ==
            if j >= |db.jobs| || db.jobs[j].verify != Verifying then db
            else
              var row, i := db.jobs[j], |db.incidents|;
              db.(jobs := db.jobs[j := row.(verify := VerifyFailed)],
                  incidents := db.incidents + [Incident(row.sku, j, Open)],
                  events := db.events + [Entry(row.sku, VerifyDenied(j)), Entry(row.sku, IncidentCreated(i))])
  {
    if j < |db.jobs| {
      var k, i := db.jobs[j].sku, |db.incidents|;
      assert Stamp(k, [VerifyDenied(j), IncidentCreated(i)]) ==
             [Entry(k, VerifyDenied(j)), Entry(k, IncidentCreated(i))];
    }
  }

  /** Every job of the SKU is Done and needs no verification any more. */
  ghost predicate AllVerified(jobs: seq<Job>, k: int) {
    forall i :: 0 <= i < |jobs| && jobs[i].sku == k ==>
      jobs[i].status == Done && (jobs[i].verify == Verified || jobs[i].verify == NotRequested)
  }

  /** A passed verification is marked, and completes the SKU in distribution when it was the last one. */
  lemma PassEffect(db: Db, j: nat)
    ensures Verify(db, j, true) ==
            if j >= |db.jobs| || db.jobs[j].verify != Verifying then db
            else
              var k, jobs := db.jobs[j].sku, db.jobs[j := db.jobs[j].(verify := Verified)];
              if AllVerified(jobs, k) && k in db.skus && db.skus[k].status == DistributionRunning then
                db.(jobs := jobs, skus := db.skus[k := Sku(Completed, db.skus[k].current)],
                    events := db.events + [Entry(k, StatusChanged(Edge(DistributionRunning, Completed))),
                                           Entry(k, VerifyPassed(j))])
              else db.(jobs := jobs, events := db.events + [Entry(k, VerifyPassed(j))])
  {
    if j < |db.jobs| {
      var k, jobs := db.jobs[j].sku, db.jobs[j := db.jobs[j].(verify := Verified)];
      var e := StatusChanged(Edge(DistributionRunning, Completed));
      assert Stamp(k, [e]) == [Entry(k, e)] && Stamp(k, [VerifyPassed(j)]) == [Entry(k, VerifyPassed(j))];
      assert jobs[j].sku == k;
      assert SiblingsVerified(jobs, k) <==> AllVerified(jobs, k);
    }
  }

  lemma ReleaseEffect(db: Db, j: nat)
    ensures Release(db, j) ==
            if j < |db.jobs| && db.jobs[j].status == PendingVerify
            then db.(jobs := db.jobs[j := db.jobs[j].(status := Pending)])
            else db
  {
    assert db.events + [] == db.events;
  }
}
