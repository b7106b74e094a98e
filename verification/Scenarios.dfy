/** Runs from the empty database in which the services fall short of what one would expect of them. */
module Scenarios {
  import opened Prelude
  import opened Workflow
  import opened Distribution
  import opened ServiceCalls
  import J = JobSafety
  import G = JobGate
  import W = CompletionWindow
  import R = ActionRecords

  /** The same rows; only the log may differ. */
  ghost predicate Like(db: Db, rows: Db) {
    db == rows.(events := db.events)
  }

  function Moved(db: Db, k: int, status: Status): Db {
    if k in db.skus then db.(skus := db.skus[k := db.skus[k].(status := status)]) else db
  }

  /** Direct transitions of SKU k through the given statuses. */
  function Transitions(k: int, from: Status, visits: seq<Status>): seq<Timed> {
    seq(|visits|, i requires 0 <= i < |visits| => Timed(0, TransitionCall(k, Stand(from, visits, i), visits[i])))
  }

  lemma TransitionAccepted(db: Db, k: int, from: Status, to: Status)
    requires k in db.skus && db.skus[k].status == from && CanTransition(from, to)
    ensures Like(Transition(db, k, from, to).db, Moved(db, k, to))
  {
    assert Transition(db, k, from, to).db == OrElse(MoveTx(db, k, from, to), db);
  }

  /** Any allowed way through the statuses can be taken by direct transitions, which touch nothing else. */
  lemma {:induction false} TransitionsFollow(db: Db, k: int, from: Status, visits: seq<Status>)
    requires k in db.skus && db.skus[k].status == from && Allowed(from, visits)
    ensures Like(PerformAll(db, {}, Transitions(k, from, visits)), Moved(db, k, Stand(from, visits, |visits|)))
    decreases |visits|
  {
    if visits != [] {
      var run := Transitions(k, from, visits);
      AllowedRest(from, visits);
      TransitionAccepted(db, k, from, visits[0]);
      assert run[1..] == Transitions(k, visits[0], visits[1..]);
      assert Perform(db, {}, run[0]) == Transition(db, k, from, visits[0]).db;
      TransitionsFollow(Perform(db, {}, run[0]), k, visits[0], visits[1..]);
    }
  }

  // ---------------------------------------------------------------- completion without jobs

  const CREATE := [Timed(0, CreateCall(7, "c", "n"))]
  const ALL_THE_WAY :=
    [Submitted, AuditAPending, AuditAApproved, ApprovedPendingVerify, Approved, DistributionRunning, Completed]

  const SKU_CREATED := EMPTY.(skus := map[7 := Sku(Draft, None)], codes := map["c" := 7])

  lemma Created()
    ensures Like(PerformAll(EMPTY, {}, CREATE), SKU_CREATED)
  {
    assert CREATE[1..] == [];
    assert PerformAll(EMPTY, {}, CREATE) == Perform(EMPTY, {}, CREATE[0]);
  }

  lemma CreatedThen(visits: seq<Status>)
    requires Allowed(Draft, visits)
    ensures Like(PerformAll(EMPTY, {}, CREATE + Transitions(7, Draft, visits)),
                 Moved(SKU_CREATED, 7, Stand(Draft, visits, |visits|)))
  {
    Created();
    PerformAppend(EMPTY, {}, CREATE, Transitions(7, Draft, visits));
    TransitionsFollow(PerformAll(EMPTY, {}, CREATE), 7, Draft, visits);
  }

  lemma AllTheWay()
    ensures Allowed(Draft, ALL_THE_WAY)
  {
  }

  /** A created SKU can be taken to Completed by direct transitions alone, without a single job. */
  lemma DirectTransitionSkipsJobs()
    ensures var db := PerformAll(EMPTY, {}, CREATE + Transitions(7, Draft, ALL_THE_WAY));
            7 in db.skus && db.skus[7].status == Completed && !SkuCompleted(db.jobs, 7)
  {
    AllTheWay();
    CreatedThen(ALL_THE_WAY);
  }

  // ---------------------------------------------------------------- both audit stages

  const SYNC := SyncParams("nas", "c", "h", None, None, 1, true)
  const STAGE_A := SubmitParams("a", 1, "h", StageA, Approve)
  const STAGE_B := SubmitParams("b", 1, "h", StageB, Approve)
  const JOB := Job("b:t", "b", 7, 1, "t", PendingVerify, NotRequested, 0, 3, None)

  const SYNCED := SKU_CREATED.(
    skus := map[7 := Sku(Draft, Some(1))],
    versions := [Version(7, 1, "h", true, false)])
  const PASSED_A := SYNCED.(
    skus := map[7 := Sku(AuditAApproved, Some(1))],
    actions := map["a" := AuditAction(1, StageA, Approve, "h")])
  const PASSED_B := PASSED_A.(
    skus := map[7 := Sku(ApprovedPendingVerify, Some(1))],
    actions := PASSED_A.actions["b" := AuditAction(1, StageB, Approve, "h")],
    jobs := [JOB])

  lemma Synced(db: Db)
    requires Like(db, SKU_CREATED)
    ensures Like(Perform(db, {}, Timed(0, SyncCall(SYNC))), SYNCED)
  {
  }

  lemma PassedA(db: Db)
    requires Like(db, Moved(SYNCED, 7, AuditAPending))
    ensures Like(Perform(db, {}, Timed(0, SubmitCall(STAGE_A, None))), PASSED_A)
  {
    assert Validate(db, db, STAGE_A, None) == Ok(Plan(7, AuditAPending, AuditAApproved, []));
  }

  const PLAN_B := Plan(7, AuditBPending, AuditBApproved, [JOB])

  lemma OneJob()
    ensures NewJobs(STAGE_B, 7, ["t"]) == [JOB] && Enqueue([], [JOB]) == [JOB]
  {
    assert IdempotentKey("b", "t") == "b:t";
    assert [JOB][1..] == [];
  }

  lemma ValidatedB(db: Db)
    requires Like(db, Moved(PASSED_A, 7, AuditBPending))
    ensures Validate(db, db, STAGE_B, Some(["t"])) == Ok(PLAN_B)
  {
    OneJob();
  }

  lemma InsertedB()
    ensures InsertAction(PASSED_A.actions, "b", ActionOf(STAGE_B)) == Some(PASSED_B.actions)
  {
    assert "a"[0] != "b"[0];
  }

  lemma CommittedB(db: Db)
    requires Like(db, Moved(PASSED_A, 7, AuditBPending))
    ensures AuditTx(db, STAGE_B, PLAN_B).Ok? && Like(AuditTx(db, STAGE_B, PLAN_B).value, PASSED_B)
  {
    OneJob();
    InsertedB();
    assert db.actions == PASSED_A.actions && db.jobs == [] && db.skus == map[7 := Sku(AuditBPending, Some(1))];
    assert Cas(db.skus, 7, AuditBPending, AuditBApproved).Some?;
    assert db.skus[7 := db.skus[7].(status := ApprovedPendingVerify)] == PASSED_B.skus;
  }

  lemma PassedB(db: Db)
    requires Like(db, Moved(PASSED_A, 7, AuditBPending))
    ensures Like(Perform(db, {}, Timed(0, SubmitCall(STAGE_B, Some(["t"])))), PASSED_B)
  {
    assert "b" !in db.actions by {
      assert "a"[0] != "b"[0];
    }
    ValidatedB(db);
    CommittedB(db);
  }

  /** Creation, a stable sync and the first audit stage: the SKU stands at AuditB_Pending. */
  const AT_STAGE_B :=
    AT_STAGE_A + [Timed(0, SubmitCall(STAGE_A, None))] + Transitions(7, AuditAApproved, [AuditBPending])

  /** And the second: it stands at Approved_PendingVerify with one job. */
  const AUDITED := AT_STAGE_B + [Timed(0, SubmitCall(STAGE_B, Some(["t"])))]

  lemma PerformOne(db: Db, t: Timed)
    ensures PerformAll(db, {}, [t]) == Perform(db, {}, t)
  {
    assert [t][1..] == [];
  }

  /** A run and one more call. */
  lemma Then(run: seq<Timed>, t: Timed)
    ensures PerformAll(EMPTY, {}, run + [t]) == Perform(PerformAll(EMPTY, {}, run), {}, t)
  {
    PerformAppend(EMPTY, {}, run, [t]);
    PerformOne(PerformAll(EMPTY, {}, run), t);
  }

  const AT_STAGE_A := CREATE + [Timed(0, SyncCall(SYNC))] + Transitions(7, Draft, [Submitted, AuditAPending])

  lemma AtStageA()
    ensures Like(PerformAll(EMPTY, {}, AT_STAGE_A), Moved(SYNCED, 7, AuditAPending))
  {
    var r1 := CREATE + [Timed(0, SyncCall(SYNC))];
    Created();
    Then(CREATE, Timed(0, SyncCall(SYNC)));
    Synced(PerformAll(EMPTY, {}, CREATE));
    PerformAppend(EMPTY, {}, r1, Transitions(7, Draft, [Submitted, AuditAPending]));
    assert Allowed(Draft, [Submitted, AuditAPending]);
    TransitionsFollow(PerformAll(EMPTY, {}, r1), 7, Draft, [Submitted, AuditAPending]);
  }

  lemma AtStageB()
    ensures Like(PerformAll(EMPTY, {}, AT_STAGE_B), Moved(PASSED_A, 7, AuditBPending))
  {
    AtStageA();
    Then(AT_STAGE_A, Timed(0, SubmitCall(STAGE_A, None)));
    PassedA(PerformAll(EMPTY, {}, AT_STAGE_A));
    var r := AT_STAGE_A + [Timed(0, SubmitCall(STAGE_A, None))];
    PerformAppend(EMPTY, {}, r, Transitions(7, AuditAApproved, [AuditBPending]));
    TransitionsFollow(PerformAll(EMPTY, {}, r), 7, AuditAApproved, [AuditBPending]);
  }

  lemma Audited()
    ensures Like(PerformAll(EMPTY, {}, AUDITED), PASSED_B)
  {
    AtStageB();
    Then(AT_STAGE_B, Timed(0, SubmitCall(STAGE_B, Some(["t"]))));
    PassedB(PerformAll(EMPTY, {}, AT_STAGE_B));
  }

  // ---------------------------------------------------------------- two decisions under one action id

  const REJECT_B := SubmitParams("b", 1, "h", StageB, Reject)
  const PLAN_REJECT := Plan(7, AuditBPending, AuditBRejected, [])
  const REJECTED := PASSED_A.(
    skus := map[7 := Sku(AuditBRejected, Some(1))],
    actions := PASSED_A.actions["b" := AuditAction(1, StageB, Reject, "h")])
  const REWORK := [Draft, Submitted, AuditAPending, AuditAApproved, AuditBPending]

  lemma ReworkAllowed()
    ensures Allowed(AuditBRejected, REWORK)
  {
  }

  lemma RejectInserted()
    ensures InsertAction(PASSED_A.actions, "b", ActionOf(REJECT_B)) == Some(REJECTED.actions)
  {
    assert "a"[0] != "b"[0];
  }

  lemma RejectCommitted(db: Db)
    requires Like(db, Moved(PASSED_A, 7, AuditBPending))
    ensures Validate(db, db, REJECT_B, None) == Ok(PLAN_REJECT)
    ensures AuditTx(db, REJECT_B, PLAN_REJECT).Ok? && Like(AuditTx(db, REJECT_B, PLAN_REJECT).value, REJECTED)
  {
    RejectInserted();
    assert db.actions == PASSED_A.actions && db.skus == map[7 := Sku(AuditBPending, Some(1))];
    assert Cas(db.skus, 7, AuditBPending, AuditBRejected).Some?;
    assert db.skus[7 := db.skus[7].(status := AuditBRejected)] == REJECTED.skus;
  }

  lemma ApprovedUnrecorded(db: Db)
    requires Like(db, Moved(REJECTED, 7, AuditBPending))
    ensures var r := AuditTx(db, STAGE_B, PLAN_B);
            r.Ok? && r.value.jobs == [JOB] && r.value.actions == REJECTED.actions && G.AtGate(r.value, 7)
  {
    OneJob();
    assert db.actions == REJECTED.actions && db.skus == map[7 := Sku(AuditBPending, Some(1))];
    assert Cas(db.skus, 7, AuditBPending, AuditBApproved).Some?;
  }

  /** A rejection and an approval, validated together under one action id, both commit, with rework in between. */
  ghost predicate LeavesApprovalUnrecorded(db: Db) {
    && Validate(db, db, REJECT_B, None) == Ok(PLAN_REJECT)
    && Validate(db, db, STAGE_B, Some(["t"])) == Ok(PLAN_B)
    && AuditTx(db, REJECT_B, PLAN_REJECT).Ok?
    && var reworked := PerformAll(AuditTx(db, REJECT_B, PLAN_REJECT).value, {}, Transitions(7, AuditBRejected, REWORK));
    && AuditTx(reworked, STAGE_B, PLAN_B).Ok?
    && var d := AuditTx(reworked, STAGE_B, PLAN_B).value;
    && G.AtGate(d, 7) && d.jobs == [JOB] && !R.Approves(d.actions, JOB)
  }

  /**
   * An approval validated while its action id was free commits after that id was used for a rejection:
   * the SKU is approved and its job created, and the action on record for the job is the rejection.
   */
  lemma ApprovalGoesUnrecorded()
    ensures LeavesApprovalUnrecorded(PerformAll(EMPTY, {}, AT_STAGE_B))
  {
    var db := PerformAll(EMPTY, {}, AT_STAGE_B);
    AtStageB();
    ValidatedB(db);
    RejectCommitted(db);
    var rejected := AuditTx(db, REJECT_B, PLAN_REJECT).value;
    ReworkAllowed();
    TransitionsFollow(rejected, 7, AuditBRejected, REWORK);
    ApprovedUnrecorded(PerformAll(rejected, {}, Transitions(7, AuditBRejected, REWORK)));
  }

  // ---------------------------------------------------------------- a pull looks at no SKU

  const RELEASE := Timed(0, ReleaseJobs(0))
  const PULL := Timed(0, PullCall("nas", Some(60), "x"))

  const RUNNING_JOB := JOB.(status := Running, attempt := Some("x"))

  lemma Released(db: Db, status: Status)
    requires Like(db, Moved(PASSED_B, 7, status))
    ensures Like(Perform(db, {}, RELEASE), Moved(PASSED_B, 7, status).(jobs := [JOB.(status := Pending)]))
  {
  }

  lemma ClaimedX(db: Db, status: Status)
    requires Like(db, Moved(PASSED_B, 7, status).(jobs := [JOB.(status := Pending)]))
    ensures Like(JobTx(db, 0, Claimed("x", 60)),
                 Moved(PASSED_B, 7, status).(jobs := [RUNNING_JOB], attempts := map["x" := Attempt(0, 60, false)]))
  {
  }

  lemma PullXIs(db: Db)
    requires |db.jobs| > 0 && db.jobs[0].status == Pending && "x" !in db.attempts
    ensures Perform(db, {}, PULL) ==
            var d := JobTx(db, 0, Claimed("x", 60)); OrElse(MoveTx(d, db.jobs[0].sku, Approved, DistributionRunning), d)
  {
    assert "nas"[0] == 'n' && !IsSpace('n');
  }

  /** The job starts; the SKU moves on only if it was Approved. */
  lemma Pulled(db: Db, status: Status)
    requires Like(db, Moved(PASSED_B, 7, status).(jobs := [JOB.(status := Pending)]))
    ensures Like(Perform(db, {}, PULL),
                 Moved(PASSED_B, 7, if status == Approved then DistributionRunning else status)
                   .(jobs := [RUNNING_JOB], attempts := map["x" := Attempt(0, 60, false)]))
  {
    PullXIs(db);
    ClaimedX(db, status);
  }

  /** A job released while its SKU is still at Approved_PendingVerify is pulled and runs there. */
  lemma PullIgnoresGate()
    ensures var db := PerformAll(EMPTY, {}, AUDITED + [RELEASE]);
            G.GateHeld(db) && !G.GateHeld(PerformAll(EMPTY, {}, AUDITED + [RELEASE] + [PULL]))
  {
    Audited();
    Then(AUDITED, RELEASE);
    Then(AUDITED + [RELEASE], PULL);
    assert Moved(PASSED_B, 7, ApprovedPendingVerify) == PASSED_B;
    Released(PerformAll(EMPTY, {}, AUDITED), ApprovedPendingVerify);
    Pulled(PerformAll(EMPTY, {}, AUDITED + [RELEASE]), ApprovedPendingVerify);
    var d := PerformAll(EMPTY, {}, AUDITED + [RELEASE] + [PULL]);
    assert G.AtGate(d, 7) && d.jobs[0].sku == 7 && d.jobs[0].status == Running;
  }

  // ---------------------------------------------------------------- two acks of one attempt

  const IN_DISTRIBUTION := AUDITED + Transitions(7, ApprovedPendingVerify, [Approved]) + [RELEASE] + [PULL]

  lemma InDistribution()
    ensures Like(PerformAll(EMPTY, {}, IN_DISTRIBUTION), DISTRIBUTED)
  {
    var r1 := AUDITED + Transitions(7, ApprovedPendingVerify, [Approved]);
    Audited();
    PerformAppend(EMPTY, {}, AUDITED, Transitions(7, ApprovedPendingVerify, [Approved]));
    TransitionsFollow(PerformAll(EMPTY, {}, AUDITED), 7, ApprovedPendingVerify, [Approved]);
    Then(r1, RELEASE);
    Released(PerformAll(EMPTY, {}, r1), Approved);
    Then(r1 + [RELEASE], PULL);
    Pulled(PerformAll(EMPTY, {}, r1 + [RELEASE]), Approved);
  }

  const DISTRIBUTED := Moved(PASSED_B, 7, DistributionRunning).(
    jobs := [RUNNING_JOB], attempts := map["x" := Attempt(0, 60, false)])

  /** An ack of attempt "x" is admitted, and after its job transaction lists the jobs of SKU 7 as finished. */
  ghost predicate Listed(db: Db) {
    && |db.jobs| == 1 && CurrentJob(db, "x") == Ok(0)
    && J.AllDoneNow(JobTx(db, 0, Finished("x")), 7)
  }

  /** Another ack of it is admitted too and commits in the window, and the SKU completes with a failed job. */
  ghost predicate FailsInWindow(db: Db)
    requires |db.jobs| == 1
  {
    && CurrentJob(db, "x") == Ok(0)
    && W.Disturbs(db, ChangeJob(0, Flunked("x")), 7)
    && var done := Exec(JobTx(db, 0, Flunked("x")), CompleteSku(7));
    && 7 in done.skus && done.skus[7].status == Completed
    && |done.jobs| == 1 && done.jobs[0].sku == 7 && done.jobs[0].status == Fail
  }

  lemma XIsCurrent(db: Db)
    requires |db.jobs| == 1 && db.jobs[0].attempt == Some("x")
    requires "x" in db.attempts && db.attempts["x"].job == 0
    ensures CurrentJob(db, "x") == Ok(0)
  {
    assert "x"[0] == 'x' && !IsSpace('x');
  }

  lemma FirstAckLists(db: Db)
    requires Like(db, DISTRIBUTED)
    ensures Listed(db)
  {
    XIsCurrent(db);
    var listed := JobTx(db, 0, Finished("x"));
    assert listed.jobs == [RUNNING_JOB.(status := Done)];
    assert listed.jobs[0].sku == 7;
  }

  lemma SecondAckDisturbs(db: Db)
    requires Like(db, DISTRIBUTED.(jobs := [RUNNING_JOB.(status := Done)],
                                   attempts := map["x" := Attempt(0, 60, true)]))
    ensures FailsInWindow(db)
  {
    XIsCurrent(db);
    var failed := JobTx(db, 0, Flunked("x"));
    assert failed.skus == db.skus && failed.jobs == [RUNNING_JOB.(status := Fail)];
    assert MoveTx(failed, 7, DistributionRunning, Completed).Some?;
  }

  /**
   * Of two acks of one attempt, both admitted while it is current, the failing one can commit in
   * the window between the other's job list and its completing transaction: it disturbs the SKU,
   * which completes with its only job failed.
   */
  lemma InterleavedAcksCompleteAFailedJob()
    ensures var db := PerformAll(EMPTY, {}, IN_DISTRIBUTION); Listed(db) && FailsInWindow(JobTx(db, 0, Finished("x")))
  {
    var db := PerformAll(EMPTY, {}, IN_DISTRIBUTION);
    InDistribution();
    FirstAckLists(db);
    SecondAckDisturbs(JobTx(db, 0, Finished("x")));
  }
}
