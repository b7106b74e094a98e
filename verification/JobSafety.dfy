/** What every run of whole service calls keeps about jobs, attempts and completion. */
module JobSafety {
  import opened Prelude
  import opened Workflow
  import opened Distribution
  import opened ServiceCalls
  import opened StatusHistory

  // ---------------------------------------------------------------- jobs are never lost or moved

  /** The job table only grows, and a job keeps its SKU, version, action and key. */
  ghost predicate JobsKept(jobs: seq<Job>, jobs': seq<Job>) {
    && |jobs| <= |jobs'|
    && forall j :: 0 <= j < |jobs| ==> SameJob(jobs[j], jobs'[j])
  }

  predicate SameJob(row: Job, row': Job) {
    row'.sku == row.sku && row'.version == row.version && row'.action == row.action && row'.key == row.key
  }

  ghost predicate Kept(db: Db, db': Db) {
    db.events <= db'.events && JobsKept(db.jobs, db'.jobs)
  }

  /** CreateBatch appends some of the batch and nothing else. */
  lemma {:induction false} EnqueueExtends(jobs: seq<Job>, batch: seq<Job>)
    ensures jobs <= Enqueue(jobs, batch)
    ensures forall i :: |jobs| <= i < |Enqueue(jobs, batch)| ==> Enqueue(jobs, batch)[i] in batch
    decreases |batch|
  {
    if batch != [] {
      EnqueueExtends(if KeyTaken(jobs, batch[0].key) then jobs else jobs + [batch[0]], batch[1..]);
    }
  }

  ghost predicate KeysUnique(jobs: seq<Job>) {
    forall i, j :: 0 <= i < j < |jobs| ==> jobs[i].key != jobs[j].key
  }

  /** CreateBatch keeps the idempotent keys unique and leaves a row for every key of the batch. */
  lemma {:induction false} EnqueueIdempotent(jobs: seq<Job>, batch: seq<Job>)
    requires KeysUnique(jobs)
    ensures KeysUnique(Enqueue(jobs, batch))
    ensures forall b :: b in batch ==> KeyTaken(Enqueue(jobs, batch), b.key)
    ensures Enqueue(Enqueue(jobs, batch), batch) == Enqueue(jobs, batch)
    decreases |batch|
  {
    if batch != [] {
      var jobs1 := if KeyTaken(jobs, batch[0].key) then jobs else jobs + [batch[0]];
      assert KeyTaken(jobs1, batch[0].key) by {
        if !KeyTaken(jobs, batch[0].key) {
          assert jobs1[|jobs|].key == batch[0].key;
        }
      }
      EnqueueIdempotent(jobs1, batch[1..]);
      var all := Enqueue(jobs1, batch[1..]);
      EnqueueExtends(jobs1, batch[1..]);
      var i :| 0 <= i < |jobs1| && jobs1[i].key == batch[0].key;
      assert all[i].key == batch[0].key;
      forall b | b in batch ensures KeyTaken(all, b.key) {
        assert b == batch[0] || b in batch[1..];
      }
    }
  }

  /** What one Submit does to the jobs: it adds rows for the SKU it moves to Approved_PendingVerify. */
  lemma SubmitJobs(db: Db, p: SubmitParams, targets: Option<seq<string>>)
    ensures var d := Submit(db, p, targets).db;
            && db.events <= d.events && db.jobs <= d.jobs
            && forall j :: |db.jobs| <= j < |d.jobs| ==>
                 && d.jobs[j].status == PendingVerify && d.jobs[j].verify == NotRequested
                 && d.jobs[j].sku in d.skus && d.skus[d.jobs[j].sku].status == ApprovedPendingVerify
  {
    var v := Validate(db, db, p, targets);
    if v.Ok? {
      EnqueueExtends(db.jobs, v.value.jobs);
    }
  }

  lemma SubmitKeepsAttempts(db: Db, p: SubmitParams, targets: Option<seq<string>>)
    ensures Submit(db, p, targets).db.attempts == db.attempts
  {
  }

  lemma JobTxKeeps(db: Db, j: nat, c: JobChange)
    requires j < |db.jobs|
    ensures JobsKept(db.jobs, JobTx(db, j, c).jobs)
  {
  }

  lemma PassKeeps(db: Db, j: nat)
    requires j < |db.jobs|
    ensures JobsKept(db.jobs, PassTx(db, j).jobs)
  {
  }

  lemma ExecKeeps(db: Db, tx: Tx)
    requires Enabled(db, tx)
    ensures JobsKept(db.jobs, Exec(db, tx).jobs)
  {
    if tx.CommitAudit? {
      EnqueueExtends(db.jobs, tx.plan.jobs);
    } else if tx.ChangeJob? {
      JobTxKeeps(db, tx.job, tx.change);
    } else if tx.PassVerify? {
      PassKeeps(db, tx.job);
    } else {
      assert Exec(db, tx).jobs == db.jobs;
    }
  }

  lemma {:induction false} RunKeeps(db: Db, txs: seq<Tx>)
    requires EnabledAll(db, txs)
    ensures JobsKept(db.jobs, ExecAll(db, txs).jobs)
    decreases |txs|
  {
    if txs != [] {
      ExecKeeps(db, txs[0]);
      RunKeeps(Exec(db, txs[0]), txs[1..]);
    }
  }

  lemma PerformKeeps(db: Db, verifyOn: set<string>, t: Timed)
    ensures Kept(db, Perform(db, verifyOn, t))
  {
    var txs := CallTxs(db, verifyOn, t);
    CallIsRun(db, verifyOn, t);
    RunKeeps(db, txs);
    RunAdvances(db, txs);
  }

  // ---------------------------------------------------------------- how a job becomes Done

  /** The job.done event of this job is in the log of its SKU. */
  ghost predicate Recorded(db: Db, j: nat)
    requires j < |db.jobs|
  {
    Entry(db.jobs[j].sku, JobDone(j)) in db.events
  }

  /** This call is a success ack, with file id and size, on the attempt that is current for the job. */
  predicate AcksDone(db: Db, call: Call, j: nat) {
    && call.AckCall?
    && CurrentJob(db, call.ack.attempt) == Ok(j)
    && call.ack.success
    && call.ack.evidence.Some?
    && call.ack.evidence.value.fileId.Some?
    && call.ack.evidence.value.sizeBytes.Some?
  }

  ghost predicate TurnsDone(db: Db, db': Db, j: nat) {
    j < |db'.jobs| && db'.jobs[j].status == Done && (j < |db.jobs| ==> db.jobs[j].status != Done)
  }

  /** The database an acknowledged success leaves before completion is tried. */
  function AckedDone(db: Db, j: nat, attempt: string, verifyOn: set<string>): Db
    requires j < |db.jobs|
  {
    JobTx(AskVerify(db, j, verifyOn), j, Finished(attempt))
  }

  lemma AckedDoneRow(db: Db, j: nat, attempt: string, verifyOn: set<string>)
    requires j < |db.jobs|
    ensures var d := AckedDone(db, j, attempt, verifyOn);
            && |d.jobs| == |db.jobs| && d.skus == db.skus
            && (forall i :: 0 <= i < |db.jobs| && i != j ==> d.jobs[i] == db.jobs[i])
            && d.jobs[j].status == Done && d.jobs[j].sku == db.jobs[j].sku
            && Entry(db.jobs[j].sku, JobDone(j)) in d.events
  {
    var asked, d := AskVerify(db, j, verifyOn), AckedDone(db, j, attempt, verifyOn);
    assert d.events[|asked.events|] == Entry(db.jobs[j].sku, JobDone(j));
  }

  lemma TryCompleteKeeps(db: Db, sku: int)
    ensures var d := TryComplete(db, sku).db; d.jobs == db.jobs && db.events <= d.events
  {
  }

  lemma AckRecords(db: Db, p: AckParams, verifyOn: set<string>, j: nat)
    requires TurnsDone(db, Ack(db, p, verifyOn).db, j)
    ensures AcksDone(db, AckCall(p), j) && Recorded(Ack(db, p, verifyOn).db, j)
  {
    var i := CurrentJob(db, p.attempt).value;
    if AckSucceeds(p) {
      var d := AckedDone(db, i, p.attempt, verifyOn);
      AckedDoneRow(db, i, p.attempt, verifyOn);
      TryCompleteKeeps(d, db.jobs[i].sku);
    }
  }

  /** The same jobs as before, and none of them newly Done. */
  ghost predicate NoneDone(jobs: seq<Job>, jobs': seq<Job>) {
    && |jobs'| == |jobs|
    && forall j :: 0 <= j < |jobs| && jobs'[j].status == Done ==> jobs[j].status == Done
  }

  lemma PullMakesNoneDone(db: Db, now: int, agent: string, lease: Option<int>, attempt: string)
    ensures NoneDone(db.jobs, Pull(db, now, agent, lease, attempt).db.jobs)
  {
  }

  lemma JobTxMakesNoneDone(db: Db, j: nat, c: JobChange)
    requires j < |db.jobs| && !c.Finished?
    ensures NoneDone(db.jobs, JobTx(db, j, c).jobs)
  {
  }

  lemma WorkersMakeNoneDone(db: Db, now: int, j: nat)
    ensures NoneDone(db.jobs, Reap(db, now, j).jobs)
    ensures NoneDone(db.jobs, Retry(db, j).jobs)
    ensures NoneDone(db.jobs, Release(db, j).jobs)
  {
    if j < |db.jobs| {
      JobTxMakesNoneDone(db, j, Reaped);
      JobTxMakesNoneDone(db, j, Retried);
      JobTxMakesNoneDone(db, j, Exhausted);
      JobTxMakesNoneDone(db, j, Released);
    }
  }

  lemma VerifyMakesNoneDone(db: Db, j: nat, passed: bool)
    ensures NoneDone(db.jobs, Verify(db, j, passed).jobs)
  {
    if j < |db.jobs| {
      JobTxMakesNoneDone(db, j, Denied);
    }
  }

  lemma OthersMakeNoneDone(db: Db, verifyOn: set<string>, t: Timed)
    requires !t.call.SubmitCall? && !t.call.AckCall?
    ensures NoneDone(db.jobs, Perform(db, verifyOn, t).jobs)
  {
    if t.call.PullCall? {
      PullMakesNoneDone(db, t.now, t.call.agent, t.call.lease, t.call.attempt);
    } else if t.call.VerifyPass? {
      VerifyMakesNoneDone(db, t.call.job, t.call.passed);
    } else if t.call.ReapPass? || t.call.RetryPass? || t.call.ReleaseJobs? {
      WorkersMakeNoneDone(db, t.now, t.call.job);
    }
  }

  /** A job becomes Done only through such an ack, and the log says so. */
  lemma DoneOnlyByAck(db: Db, verifyOn: set<string>, t: Timed, j: nat)
    requires TurnsDone(db, Perform(db, verifyOn, t), j)
    ensures AcksDone(db, t.call, j) && Recorded(Perform(db, verifyOn, t), j)
  {
    match t.call
    case SubmitCall(p, targets) => SubmitJobs(db, p, targets);
    case AckCall(p) => AckRecords(db, p, verifyOn, j);
    case _ => OthersMakeNoneDone(db, verifyOn, t);
  }

  // ---------------------------------------------------------------- how a SKU becomes Completed

  ghost predicate TurnsCompleted(db: Db, db': Db, k: int) {
    k in db'.skus && db'.skus[k].status == Completed && (k in db.skus ==> db.skus[k].status != Completed)
  }

  /** The caller asked for this SKU to be Completed by name; TransitionStatus consults no job. */
  predicate Direct(call: Call, k: int) {
    call.TransitionCall? && call.next == Completed && call.sku == k
  }

  ghost predicate AllDoneNow(db: Db, k: int) {
    GateOpen(db.jobs, k)
  }

  lemma TryCompletes(db: Db, sku: int, k: int)
    requires TurnsCompleted(db, TryComplete(db, sku).db, k)
    ensures AllDoneNow(TryComplete(db, sku).db, k)
  {
  }

  lemma AckCompletes(db: Db, p: AckParams, verifyOn: set<string>, k: int)
    requires TurnsCompleted(db, Ack(db, p, verifyOn).db, k)
    ensures AllDoneNow(Ack(db, p, verifyOn).db, k)
  {
    var i := CurrentJob(db, p.attempt).value;
    if AckSucceeds(p) {
      var d := AckedDone(db, i, p.attempt, verifyOn);
      AckedDoneRow(db, i, p.attempt, verifyOn);
      assert Ack(db, p, verifyOn) == TryComplete(d, db.jobs[i].sku);
      TryCompletes(d, db.jobs[i].sku, k);
    }
  }

  lemma VerifyCompletes(db: Db, j: nat, passed: bool, k: int)
    requires TurnsCompleted(db, Verify(db, j, passed), k)
    ensures AllDoneNow(Verify(db, j, passed), k)
  {
    var d := db.(jobs := db.jobs[j := db.jobs[j].(verify := Verified)]);
    assert passed && SiblingsVerified(d.jobs, k);
    assert Verify(db, j, passed).jobs == d.jobs;
  }

  lemma SubmitDoesNotComplete(db: Db, p: SubmitParams, targets: Option<seq<string>>, k: int)
    ensures !TurnsCompleted(db, Submit(db, p, targets).db, k)
  {
  }

  lemma PullDoesNotComplete(db: Db, now: int, agent: string, lease: Option<int>, attempt: string, k: int)
    ensures !TurnsCompleted(db, Pull(db, now, agent, lease, attempt).db, k)
  {
  }

  lemma CreateDoesNotComplete(db: Db, sku: int, code: string, name: string, k: int)
    ensures !TurnsCompleted(db, Create(db, sku, code, name).db, k)
  {
  }

  lemma MoveDoesNotComplete(db: Db, sku: int, from: Status, to: Status, k: int)
    requires to != Completed || sku != k
    ensures !TurnsCompleted(db, OrElse(MoveTx(db, sku, from, to), db), k)
  {
  }

  lemma TransitionDoesNotComplete(db: Db, sku: int, expected: Status, next: Status, k: int)
    requires next != Completed || sku != k
    ensures !TurnsCompleted(db, Transition(db, sku, expected, next).db, k)
  {
    MoveDoesNotComplete(db, sku, expected, next, k);
    TransitionIsMove(db, sku, expected, next);
  }

  lemma SyncDoesNotComplete(db: Db, p: SyncParams, k: int)
    ensures !TurnsCompleted(db, Sync(db, p).db, k)
  {
  }

  /** A direct transition reads and writes no job. */
  lemma DirectKeepsJobs(db: Db, sku: int, expected: Status, next: Status)
    ensures Transition(db, sku, expected, next).db.jobs == db.jobs
  {
  }

  lemma GatedCompletion(db: Db, verifyOn: set<string>, t: Timed, k: int)
    requires TurnsCompleted(db, Perform(db, verifyOn, t), k) && !Direct(t.call, k)
    ensures AllDoneNow(Perform(db, verifyOn, t), k)
  {
    match t.call
    case AckCall(p) => AckCompletes(db, p, verifyOn, k);
    case VerifyPass(j, passed) => VerifyCompletes(db, j, passed, k);
    case SubmitCall(p, targets) => SubmitDoesNotComplete(db, p, targets, k);
    case PullCall(agent, lease, attempt) => PullDoesNotComplete(db, t.now, agent, lease, attempt, k);
    case CreateCall(sku, code, name) => CreateDoesNotComplete(db, sku, code, name, k);
    case TransitionCall(sku, expected, next) => TransitionDoesNotComplete(db, sku, expected, next, k);
    case SyncCall(p) => SyncDoesNotComplete(db, p, k);
    case _ =>
  }

  /**
   * A call that brings a SKU to Completed leaves it with a job, all its jobs Done and none
   * Verifying, if and only if it does not name Completed itself or the jobs stood so before it.
   */
  lemma CompletedOnlyWhenDone(db: Db, verifyOn: set<string>, t: Timed, k: int)
    requires TurnsCompleted(db, Perform(db, verifyOn, t), k)
    ensures AllDoneNow(Perform(db, verifyOn, t), k) <==> (Direct(t.call, k) ==> AllDoneNow(db, k))
  {
    if Direct(t.call, k) {
      DirectKeepsJobs(db, t.call.sku, t.call.expected, t.call.next);
    } else {
      GatedCompletion(db, verifyOn, t, k);
    }
  }

  // ---------------------------------------------------------------- the invariant over runs

  ghost predicate HasJob(db: Db, k: int) {
    exists j :: 0 <= j < |db.jobs| && db.jobs[j].sku == k
  }

  /** Call i of the run acked this job Done, with file id and size, on its then current attempt. */
  ghost predicate AckedAt(verifyOn: set<string>, run: seq<Timed>, i: nat, j: nat)
    requires i < |run|
  {
    AcksDone(PerformAll(EMPTY, verifyOn, run[..i]), run[i].call, j)
  }

  /** Some call of the run did, and the log of the job's SKU says so. */
  ghost predicate Proven(verifyOn: set<string>, run: seq<Timed>, j: nat) {
    var db := PerformAll(EMPTY, verifyOn, run);
    && j < |db.jobs| && Recorded(db, j)
    && exists i :: 0 <= i < |run| && AckedAt(verifyOn, run, i, j)
  }

  ghost predicate DoneProven(verifyOn: set<string>, run: seq<Timed>) {
    var db := PerformAll(EMPTY, verifyOn, run);
    forall j :: 0 <= j < |db.jobs| && db.jobs[j].status == Done ==> Proven(verifyOn, run, j)
  }

  /** If the SKU is Completed, it has at least one job and every one of its jobs is proven. */
  ghost predicate Earned(verifyOn: set<string>, run: seq<Timed>, k: int) {
    var db := PerformAll(EMPTY, verifyOn, run);
    k in db.skus && db.skus[k].status == Completed ==>
      HasJob(db, k) && forall j :: 0 <= j < |db.jobs| && db.jobs[j].sku == k ==> Proven(verifyOn, run, j)
  }

  /** The last call of a run does what Perform says to the database the earlier calls left. */
  lemma {:induction false} PerformLast(db: Db, verifyOn: set<string>, run: seq<Timed>)
    requires run != []
    ensures PerformAll(db, verifyOn, run) ==
            Perform(PerformAll(db, verifyOn, run[..|run| - 1]), verifyOn, Last(run))
    decreases |run|
  {
    if |run| > 1 {
      PerformLast(Perform(db, verifyOn, run[0]), verifyOn, run[1..]);
      assert run[1..][..|run| - 2] == run[..|run| - 1][1..];
    }
  }

  lemma RecordedStays(db: Db, db': Db, j: nat)
    requires Kept(db, db') && j < |db.jobs| && Recorded(db, j)
    ensures Recorded(db', j)
  {
    var i :| 0 <= i < |db.events| && db.events[i] == Entry(db.jobs[j].sku, JobDone(j));
    assert db'.events[i] == db.events[i];
  }

  /** No call adds a job to a SKU that is Completed. */
  lemma CompletedGainsNoJob(db: Db, verifyOn: set<string>, t: Timed, j: nat)
    requires |db.jobs| <= j < |Perform(db, verifyOn, t).jobs|
    ensures var d := Perform(db, verifyOn, t);
            d.jobs[j].status == PendingVerify && d.jobs[j].sku in d.skus && d.skus[d.jobs[j].sku].status != Completed
  {
    match t.call
    case SubmitCall(p, targets) => SubmitJobs(db, p, targets);
    case AckCall(p) => AckKeepsCount(db, p, verifyOn);
    case _ => OthersMakeNoneDone(db, verifyOn, t);
  }

  lemma AckKeepsCount(db: Db, p: AckParams, verifyOn: set<string>)
    ensures |Ack(db, p, verifyOn).db.jobs| == |db.jobs|
  {
  }

  /** A proven job stays so. */
  lemma ProvenStays(verifyOn: set<string>, run: seq<Timed>, t: Timed, j: nat)
    requires Proven(verifyOn, run, j)
    ensures Proven(verifyOn, run + [t], j)
  {
    var db := PerformAll(EMPTY, verifyOn, run);
    PerformNext(verifyOn, run, t);
    PerformKeeps(db, verifyOn, t);
    RecordedStays(db, Perform(db, verifyOn, t), j);
    var i :| 0 <= i < |run| && AckedAt(verifyOn, run, i, j);
    assert (run + [t])[..i] == run[..i] && (run + [t])[i] == run[i];
    assert AckedAt(verifyOn, run + [t], i, j);
  }

  /** A job that becomes Done is proven by the call that made it so. */
  lemma ProvenNow(verifyOn: set<string>, run: seq<Timed>, t: Timed, j: nat)
    requires TurnsDone(PerformAll(EMPTY, verifyOn, run), Perform(PerformAll(EMPTY, verifyOn, run), verifyOn, t), j)
    ensures Proven(verifyOn, run + [t], j)
  {
    DoneOnlyByAck(PerformAll(EMPTY, verifyOn, run), verifyOn, t, j);
    PerformNext(verifyOn, run, t);
    assert (run + [t])[..|run|] == run;
    assert AckedAt(verifyOn, run + [t], |run|, j);
  }

  lemma PerformNext(verifyOn: set<string>, run: seq<Timed>, t: Timed)
    ensures PerformAll(EMPTY, verifyOn, run + [t]) == Perform(PerformAll(EMPTY, verifyOn, run), verifyOn, t)
  {
    PerformLast(EMPTY, verifyOn, run + [t]);
    assert (run + [t])[..|run|] == run;
  }

  lemma DoneProvenAt(verifyOn: set<string>, run: seq<Timed>, t: Timed, j: nat)
    requires DoneProven(verifyOn, run)
    requires j < |PerformAll(EMPTY, verifyOn, run + [t]).jobs|
    requires PerformAll(EMPTY, verifyOn, run + [t]).jobs[j].status == Done
    ensures Proven(verifyOn, run + [t], j)
  {
    var db := PerformAll(EMPTY, verifyOn, run);
    PerformNext(verifyOn, run, t);
    if TurnsDone(db, Perform(db, verifyOn, t), j) {
      ProvenNow(verifyOn, run, t, j);
    } else {
      ProvenStays(verifyOn, run, t, j);
    }
  }

  /**
   * In every reachable state each Done job was acked by a call of the run on its then current
   * attempt with file id and size, and has its job.done event.
   */
  lemma {:induction false} DoneIsEarned(verifyOn: set<string>, run: seq<Timed>)
    ensures DoneProven(verifyOn, run)
    decreases |run|
  {
    if run != [] {
      var pre, db := run[..|run| - 1], PerformAll(EMPTY, verifyOn, run);
      DoneIsEarned(verifyOn, pre);
      assert pre + [Last(run)] == run;
      forall j | 0 <= j < |db.jobs| && db.jobs[j].status == Done ensures Proven(verifyOn, run, j) {
        DoneProvenAt(verifyOn, pre, Last(run), j);
      }
    }
  }

  /** A call that does not complete SKU k by name leaves it earned. */
  lemma EarnedStep(verifyOn: set<string>, run: seq<Timed>, t: Timed, k: int)
    requires Earned(verifyOn, run, k) && !Direct(t.call, k)
    ensures Earned(verifyOn, run + [t], k)
  {
    var db, d := PerformAll(EMPTY, verifyOn, run), PerformAll(EMPTY, verifyOn, run + [t]);
    PerformNext(verifyOn, run, t);
    PerformKeeps(db, verifyOn, t);
    if TurnsCompleted(db, d, k) {
      GatedCompletion(db, verifyOn, t, k);
      DoneIsEarned(verifyOn, run + [t]);
    } else if k in d.skus && d.skus[k].status == Completed {
      var i :| 0 <= i < |db.jobs| && db.jobs[i].sku == k;
      assert d.jobs[i].sku == k;
      forall j | 0 <= j < |d.jobs| && d.jobs[j].sku == k ensures Proven(verifyOn, run + [t], j) {
        if j < |db.jobs| {
          ProvenStays(verifyOn, run, t, j);
        } else {
          CompletedGainsNoJob(db, verifyOn, t, j);
        }
      }
    }
  }

  /**
   * In every run that does not complete SKU k by name, whatever it does to others: if k is Completed
   * it has at least one job, and each of its jobs was acked by a call of the run on its then current
   * attempt with file id and size, and has its job.done event.
   */
  lemma {:induction false} CompletionIsEarned(verifyOn: set<string>, run: seq<Timed>, k: int)
    requires forall i :: 0 <= i < |run| ==> !Direct(run[i].call, k)
    ensures Earned(verifyOn, run, k)
    decreases |run|
  {
    if run != [] {
      var pre := run[..|run| - 1];
      CompletionIsEarned(verifyOn, pre, k);
      EarnedStep(verifyOn, pre, Last(run), k);
      assert pre + [Last(run)] == run;
    }
  }
}
