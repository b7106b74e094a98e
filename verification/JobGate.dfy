/**
 * The policy's rule that a SKU at Approved_PendingVerify has no running job: what the services do
 * to keep it, and exactly which calls break it.
 */
module JobGate {
  import opened Prelude
  import opened Workflow
  import opened Distribution
  import opened ServiceCalls
  import J = JobSafety

  predicate AtGate(db: Db, k: int) {
    k in db.skus && db.skus[k].status == ApprovedPendingVerify
  }

  ghost predicate HasRunning(jobs: seq<Job>, k: int) {
    exists j :: 0 <= j < |jobs| && jobs[j].sku == k && jobs[j].status == Running
  }

  /** No SKU at Approved_PendingVerify has a running job. */
  ghost predicate GateHeld(db: Db) {
    forall k :: AtGate(db, k) ==> !HasRunning(db.jobs, k)
  }

  // ---------------------------------------------------------------- services alone

  /** Every job is still where Submit put it. */
  ghost predicate Untouched(db: Db) {
    && (forall j :: 0 <= j < |db.jobs| ==> db.jobs[j].status == PendingVerify && db.jobs[j].verify == NotRequested)
    && db.attempts == map[]
  }

  lemma FirstPendingNone(jobs: seq<Job>)
    requires forall j :: 0 <= j < |jobs| ==> jobs[j].status == PendingVerify
    ensures FirstPending(jobs, 0) == None
  {
  }

  lemma IdleCalls(
      db: Db, now: int, agent: string, lease: Option<int>, attempt: string, p: AckParams, verifyOn: set<string>)
    requires Untouched(db)
    ensures Pull(db, now, agent, lease, attempt).db == db
    ensures Ack(db, p, verifyOn).db == db
    ensures Heartbeat(db, now, attempt, lease).db == db
  {
    FirstPendingNone(db.jobs);
  }

  lemma IdleWorkers(db: Db, now: int, j: nat, passed: bool)
    requires Untouched(db)
    ensures Reap(db, now, j) == db && Retry(db, j) == db && Verify(db, j, passed) == db
  {
  }

  lemma RestKeepsJobs(db: Db, verifyOn: set<string>, t: Timed)
    requires || t.call.CreateCall? || t.call.TransitionCall? || t.call.SyncCall?
             || t.call.AssignCall? || t.call.ResolveCall? || t.call.MarkCall?
    ensures Perform(db, verifyOn, t).jobs == db.jobs && Perform(db, verifyOn, t).attempts == db.attempts
  {
    if t.call.TransitionCall? {
      TransitionIsMove(db, t.call.sku, t.call.expected, t.call.next);
    }
  }

  lemma UntouchedStep(db: Db, verifyOn: set<string>, t: Timed)
    requires Untouched(db) && !t.call.ReleaseJobs?
    ensures Untouched(Perform(db, verifyOn, t))
  {
    if t.call.SubmitCall? {
      J.SubmitJobs(db, t.call.submit, t.call.targets);
      J.SubmitKeepsAttempts(db, t.call.submit, t.call.targets);
    } else if t.call.PullCall? {
      IdleCalls(db, t.now, t.call.agent, t.call.lease, t.call.attempt, AckParams("", false, None), verifyOn);
    } else if t.call.AckCall? {
      IdleCalls(db, t.now, "", None, "", t.call.ack, verifyOn);
    } else if t.call.HeartbeatCall? {
      IdleCalls(db, t.now, "", t.call.renewal, t.call.beat, AckParams("", false, None), verifyOn);
    } else if t.call.ReapPass? || t.call.RetryPass? || t.call.VerifyPass? {
      IdleWorkers(db, t.now, t.call.job, t.call.VerifyPass? && t.call.passed);
    } else {
      RestKeepsJobs(db, verifyOn, t);
    }
  }

  /**
   * Without the step that releases jobs, which no service performs, no job ever leaves
   * PendingVerify in any run: nothing is pulled, nothing runs, and the gate holds.
   */
  lemma {:induction false} NothingRunsUnreleased(verifyOn: set<string>, run: seq<Timed>)
    requires forall i :: 0 <= i < |run| ==> !run[i].call.ReleaseJobs?
    ensures Untouched(PerformAll(EMPTY, verifyOn, run)) && GateHeld(PerformAll(EMPTY, verifyOn, run))
    decreases |run|
  {
    if run != [] {
      var pre := run[..|run| - 1];
      NothingRunsUnreleased(verifyOn, pre);
      J.PerformLast(EMPTY, verifyOn, run);
      UntouchedStep(PerformAll(EMPTY, verifyOn, pre), verifyOn, Last(run));
    }
  }

  // ---------------------------------------------------------------- which calls break the gate

  /** The job a pull would claim. */
  function ClaimedJob(db: Db, agent: string, lease: Option<int>, attempt: string): Option<nat> {
    if Blank(agent) || !ValidLease(lease) || attempt in db.attempts then None else FirstPending(db.jobs, 0)
  }

  /** The SKU a submission would bring to the gate. */
  function SubmittedSku(db: Db, p: SubmitParams, targets: Option<seq<string>>): Option<int> {
    var v := Validate(db, db, p, targets);
    if p.actionId == "" || p.versionId <= 0 || p.hash == "" || p.actionId in db.actions || v.Err? then None
    else if v.value.next != AuditBApproved || InsertAction(db.actions, p.actionId, ActionOf(p)).None? then None
    else Some(v.value.sku)
  }

  /** A pull for a SKU at the gate, or a move to the gate of a SKU that has a running job. */
  ghost predicate Breaks(db: Db, t: Timed) {
    match t.call
    case PullCall(agent, lease, attempt) =>
      var j := ClaimedJob(db, agent, lease, attempt); j.Some? && j.value < |db.jobs| && AtGate(db, db.jobs[j.value].sku)
    case SubmitCall(p, targets) =>
      var k := SubmittedSku(db, p, targets); k.Some? && HasRunning(db.jobs, k.value)
    case TransitionCall(k, expected, next) =>
      Accepts(db, k, expected, next) && next == ApprovedPendingVerify && HasRunning(db.jobs, k)
    case _ => false
  }

  /** No SKU comes to the gate and no job starts running. */
  ghost predicate Calm(db: Db, d: Db) {
    && (forall k :: AtGate(d, k) ==> AtGate(db, k))
    && (forall k :: HasRunning(d.jobs, k) ==> HasRunning(db.jobs, k))
  }

  /** The same rows, each for the same SKU, and none newly running. */
  lemma NoneStarts(jobs: seq<Job>, jobs': seq<Job>, k: int)
    requires J.JobsKept(jobs, jobs')
    requires forall j :: 0 <= j < |jobs'| && jobs'[j].status == Running ==> j < |jobs| && jobs[j].status == Running
    ensures HasRunning(jobs', k) ==> HasRunning(jobs, k)
  {
    if HasRunning(jobs', k) {
      var j :| 0 <= j < |jobs'| && jobs'[j].sku == k && jobs'[j].status == Running;
      assert jobs[j].sku == k;
    }
  }

  lemma JobTxCalm(db: Db, j: nat, c: JobChange)
    requires j < |db.jobs| && !c.Claimed?
    ensures Calm(db, JobTx(db, j, c))
  {
    forall k ensures HasRunning(JobTx(db, j, c).jobs, k) ==> HasRunning(db.jobs, k) {
      NoneStarts(db.jobs, JobTx(db, j, c).jobs, k);
    }
  }

  lemma TryCompleteCalm(db: Db, sku: int)
    ensures Calm(db, TryComplete(db, sku).db)
  {
  }

  lemma AckCalm(db: Db, p: AckParams, verifyOn: set<string>)
    ensures Calm(db, Ack(db, p, verifyOn).db)
  {
    var r := CurrentJob(db, p.attempt);
    if r.Ok? {
      var asked := AskVerify(db, r.value, verifyOn);
      JobTxCalm(db, r.value, Flunked(p.attempt));
      JobTxCalm(db, r.value, VerifyAsked);
      JobTxCalm(asked, r.value, Finished(p.attempt));
      TryCompleteCalm(JobTx(asked, r.value, Finished(p.attempt)), db.jobs[r.value].sku);
    }
  }

  lemma VerifyCalm(db: Db, j: nat, passed: bool)
    ensures Calm(db, Verify(db, j, passed))
  {
    if j < |db.jobs| {
      JobTxCalm(db, j, Denied);
      forall k ensures HasRunning(PassTx(db, j).jobs, k) ==> HasRunning(db.jobs, k) {
        NoneStarts(db.jobs, PassTx(db, j).jobs, k);
      }
    }
  }

  lemma WorkersCalm(db: Db, now: int, j: nat)
    ensures Calm(db, Reap(db, now, j)) && Calm(db, Retry(db, j)) && Calm(db, Release(db, j))
  {
    if j < |db.jobs| {
      JobTxCalm(db, j, Reaped);
      JobTxCalm(db, j, Retried);
      JobTxCalm(db, j, Exhausted);
      JobTxCalm(db, j, Released);
    }
  }

  lemma SyncCalm(db: Db, p: SyncParams)
    ensures Calm(db, Sync(db, p).db)
  {
  }

  lemma CreateCalm(db: Db, sku: int, code: string, name: string)
    ensures Calm(db, Create(db, sku, code, name).db)
  {
  }

  lemma OthersCalm(db: Db, verifyOn: set<string>, t: Timed)
    requires !t.call.PullCall? && !t.call.SubmitCall? && !t.call.TransitionCall?
    ensures Calm(db, Perform(db, verifyOn, t))
  {
    if t.call.AckCall? {
      AckCalm(db, t.call.ack, verifyOn);
    } else if t.call.VerifyPass? {
      VerifyCalm(db, t.call.job, t.call.passed);
    } else if t.call.ReapPass? || t.call.RetryPass? || t.call.ReleaseJobs? {
      WorkersCalm(db, t.now, t.call.job);
    } else if t.call.SyncCall? {
      SyncCalm(db, t.call.sync);
    } else if t.call.CreateCall? {
      CreateCalm(db, t.call.sku, t.call.code, t.call.name);
    }
  }

  lemma PullMoves(db: Db, now: int, agent: string, lease: Option<int>, attempt: string, k: int)
    ensures var d, j := Pull(db, now, agent, lease, attempt).db, ClaimedJob(db, agent, lease, attempt);
            && (AtGate(d, k) <==> AtGate(db, k))
            && d.jobs == if j.None? then db.jobs else db.jobs[j.value := NewRow(db.jobs[j.value], Claimed(attempt, 0))]
  {
  }

  lemma ClaimRuns(jobs: seq<Job>, j: nat, attempt: string, k: int)
    requires j < |jobs|
    ensures var jobs' := jobs[j := NewRow(jobs[j], Claimed(attempt, 0))];
            && HasRunning(jobs', jobs[j].sku)
            && (k != jobs[j].sku ==> HasRunning(jobs', k) ==> HasRunning(jobs, k))
  {
    var jobs' := jobs[j := NewRow(jobs[j], Claimed(attempt, 0))];
    assert jobs'[j].sku == jobs[j].sku && jobs'[j].status == Running;
    if k != jobs[j].sku && HasRunning(jobs', k) {
      var i :| 0 <= i < |jobs'| && jobs'[i].sku == k && jobs'[i].status == Running;
      assert jobs[i] == jobs'[i];
    }
  }

  lemma PullGate(db: Db, now: int, agent: string, lease: Option<int>, attempt: string)
    requires GateHeld(db)
    ensures GateHeld(Pull(db, now, agent, lease, attempt).db) <==>
              !Breaks(db, Timed(now, PullCall(agent, lease, attempt)))
  {
    var j := ClaimedJob(db, agent, lease, attempt);
    forall k ensures AtGate(Pull(db, now, agent, lease, attempt).db, k) <==> AtGate(db, k) {
      PullMoves(db, now, agent, lease, attempt, k);
    }
    PullMoves(db, now, agent, lease, attempt, 0);
    if j.Some? {
      forall k {
        ClaimRuns(db.jobs, j.value, attempt, k);
      }
      ClaimRuns(db.jobs, j.value, attempt, 0);
    }
  }

  lemma RunningStays(jobs: seq<Job>, jobs': seq<Job>, k: int)
    requires jobs <= jobs' && forall j :: |jobs| <= j < |jobs'| ==> jobs'[j].status != Running
    ensures HasRunning(jobs', k) <==> HasRunning(jobs, k)
  {
    if HasRunning(jobs, k) {
      var j :| 0 <= j < |jobs| && jobs[j].sku == k && jobs[j].status == Running;
      assert jobs'[j] == jobs[j];
    }
  }

  lemma SubmitMoves(db: Db, p: SubmitParams, targets: Option<seq<string>>, k: int)
    ensures AtGate(Submit(db, p, targets).db, k) <==> AtGate(db, k) || SubmittedSku(db, p, targets) == Some(k)
  {
  }

  lemma SubmitGate(db: Db, now: int, p: SubmitParams, targets: Option<seq<string>>)
    requires GateHeld(db)
    ensures GateHeld(Submit(db, p, targets).db) <==> !Breaks(db, Timed(now, SubmitCall(p, targets)))
  {
    var d := Submit(db, p, targets).db;
    J.SubmitJobs(db, p, targets);
    forall k ensures AtGate(d, k) <==> AtGate(db, k) || SubmittedSku(db, p, targets) == Some(k) {
      SubmitMoves(db, p, targets, k);
    }
    forall k ensures HasRunning(d.jobs, k) <==> HasRunning(db.jobs, k) {
      RunningStays(db.jobs, d.jobs, k);
    }
    var k := SubmittedSku(db, p, targets);
    if k.Some? {
      assert AtGate(d, k.value);
    }
  }

  lemma MoveTxMoves(db: Db, k: int, from: Status, to: Status, m: int)
    requires k in db.skus && db.skus[k].status == from
    ensures var d := OrElse(MoveTx(db, k, from, to), db);
            d.jobs == db.jobs && (AtGate(d, m) <==> if m == k then to == ApprovedPendingVerify else AtGate(db, m))
  {
  }

  lemma TransitionMoves(db: Db, k: int, expected: Status, next: Status, m: int)
    ensures Transition(db, k, expected, next).db.jobs == db.jobs
    ensures AtGate(Transition(db, k, expected, next).db, m) <==>
              if m == k && Accepts(db, k, expected, next) then next == ApprovedPendingVerify else AtGate(db, m)
  {
    TransitionIsMove(db, k, expected, next);
    if Accepts(db, k, expected, next) {
      MoveTxMoves(db, k, expected, next, m);
    }
  }

  lemma TransitionGate(db: Db, now: int, k: int, expected: Status, next: Status)
    requires GateHeld(db)
    ensures GateHeld(Transition(db, k, expected, next).db) <==>
              !Breaks(db, Timed(now, TransitionCall(k, expected, next)))
  {
    var d := Transition(db, k, expected, next).db;
    TransitionMoves(db, k, expected, next, k);
    forall m | m != k ensures AtGate(d, m) <==> AtGate(db, m) {
      TransitionMoves(db, k, expected, next, m);
    }
    assert Breaks(db, Timed(now, TransitionCall(k, expected, next))) <==>
             Accepts(db, k, expected, next) && next == ApprovedPendingVerify && HasRunning(db.jobs, k);
  }

  /** A call leaves the gate held if and only if it is neither such a pull nor such a move. */
  lemma GateKeptIffNotBroken(db: Db, verifyOn: set<string>, t: Timed)
    requires GateHeld(db)
    ensures GateHeld(Perform(db, verifyOn, t)) <==> !Breaks(db, t)
  {
    if t.call.PullCall? {
      PullGate(db, t.now, t.call.agent, t.call.lease, t.call.attempt);
    } else if t.call.SubmitCall? {
      SubmitGate(db, t.now, t.call.submit, t.call.targets);
    } else if t.call.TransitionCall? {
      TransitionGate(db, t.now, t.call.sku, t.call.expected, t.call.next);
    } else {
      OthersCalm(db, verifyOn, t);
    }
  }
}
