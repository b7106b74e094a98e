/**
 * Completion under interleaving. An ack lists the jobs of its SKU and completes the SKU in a later
 * transaction; between the two any other transactions may commit. What the list said still holds
 * at the end of such a window exactly as long as no transaction in it disturbs it.
 */
module CompletionWindow {
  import opened Prelude
  import opened Workflow
  import opened Distribution
  import opened ServiceCalls
  import J = JobSafety

  /**
   * A transaction that reopens a finished SKU: a change of one of its jobs other than an ack of
   * success or a failed verification, or a stage B approval that creates a job for it.
   */
  predicate Disturbs(db: Db, tx: Tx, k: int) {
    match tx
    case ChangeJob(j, c) => j < |db.jobs| && db.jobs[j].sku == k && !c.Finished? && !c.Denied?
    case CommitAudit(p, plan) =>
      && plan.sku == k && plan.next == AuditBApproved && AuditTx(db, p, plan).Ok?
      && BringsNew(db.jobs, plan.jobs)
    case _ => false
  }

  predicate BringsNew(jobs: seq<Job>, batch: seq<Job>) {
    exists i :: 0 <= i < |batch| && !KeyTaken(jobs, batch[i].key)
  }

  lemma {:induction false} EnqueueGrows(jobs: seq<Job>, batch: seq<Job>)
    ensures BringsNew(jobs, batch) <==> |Enqueue(jobs, batch)| > |jobs|
    decreases |batch|
  {
    if batch != [] {
      var rest := batch[1..];
      if KeyTaken(jobs, batch[0].key) {
        EnqueueGrows(jobs, rest);
        if BringsNew(jobs, batch) {
          var i :| 0 <= i < |batch| && !KeyTaken(jobs, batch[i].key);
          assert rest[i - 1] == batch[i];
        }
        if BringsNew(jobs, rest) {
          var i :| 0 <= i < |rest| && !KeyTaken(jobs, rest[i].key);
          assert batch[i + 1] == rest[i];
        }
      } else {
        J.EnqueueExtends(jobs + [batch[0]], rest);
      }
    }
  }

  /** The jobs of a validated plan are new jobs of its SKU. */
  lemma PlannedJobs(p: SubmitParams, plan: Plan)
    requires Validated(p, plan)
    ensures forall b :: b in plan.jobs ==> b.sku == plan.sku && b.status == PendingVerify
  {
  }

  lemma SameJobs(db: Db, db': Db, k: int)
    requires db'.jobs == db.jobs
    ensures J.AllDoneNow(db', k) <==> J.AllDoneNow(db, k)
  {
  }

  lemma AuditCase(db: Db, p: SubmitParams, plan: Plan, k: int)
    requires Validated(p, plan) && J.AllDoneNow(db, k)
    ensures var tx := CommitAudit(p, plan); J.AllDoneNow(Exec(db, tx), k) <==> !Disturbs(db, tx, k)
  {
    var d := Exec(db, CommitAudit(p, plan));
    if AuditTx(db, p, plan).Ok? && plan.next == AuditBApproved {
      assert d.jobs == Enqueue(db.jobs, plan.jobs);
      J.EnqueueExtends(db.jobs, plan.jobs);
      EnqueueGrows(db.jobs, plan.jobs);
      PlannedJobs(p, plan);
      if |d.jobs| > |db.jobs| {
        Grown(db.jobs, d.jobs, plan.sku, k);
      }
    } else {
      SameJobs(db, d, k);
    }
  }

  /** New PendingVerify jobs of one SKU reopen it and no other. */
  lemma Grown(jobs: seq<Job>, jobs': seq<Job>, sku: int, k: int)
    requires jobs < jobs' && SkuCompleted(jobs, k) && !AnyVerifying(jobs, k)
    requires forall i :: |jobs| <= i < |jobs'| ==> jobs'[i].sku == sku && jobs'[i].status == PendingVerify
    ensures SkuCompleted(jobs', k) && !AnyVerifying(jobs', k) <==> sku != k
  {
    assert jobs'[|jobs|].sku == sku;
    var i :| 0 <= i < |jobs| && jobs[i].sku == k;
    assert jobs'[i] == jobs[i];
  }

  lemma JobCase(db: Db, j: nat, c: JobChange, k: int)
    requires Enabled(db, ChangeJob(j, c)) && J.AllDoneNow(db, k)
    ensures J.AllDoneNow(JobTx(db, j, c), k) <==> !Disturbs(db, ChangeJob(j, c), k)
  {
    var d := JobTx(db, j, c);
    assert d.jobs[j] == NewRow(db.jobs[j], c);
    var i :| 0 <= i < |db.jobs| && db.jobs[i].sku == k;
    assert d.jobs[i].sku == k;
  }

  lemma PassCase(db: Db, j: nat, k: int)
    requires j < |db.jobs| && J.AllDoneNow(db, k)
    ensures J.AllDoneNow(PassTx(db, j), k)
  {
    var d := PassTx(db, j);
    assert d.jobs == db.jobs[j := db.jobs[j].(verify := Verified)];
    var i :| 0 <= i < |db.jobs| && db.jobs[i].sku == k;
    assert d.jobs[i].sku == k;
  }

  lemma QuietCase(db: Db, tx: Tx)
    requires Enabled(db, tx) && !tx.ChangeJob? && !tx.CommitAudit? && !tx.PassVerify?
    ensures Exec(db, tx).jobs == db.jobs
  {
  }

  /** A transaction leaves a finished SKU finished if and only if it does not disturb it. */
  lemma FinishedIffUndisturbed(db: Db, tx: Tx, k: int)
    requires Enabled(db, tx) && J.AllDoneNow(db, k)
    ensures J.AllDoneNow(Exec(db, tx), k) <==> !Disturbs(db, tx, k)
  {
    if tx.ChangeJob? {
      JobCase(db, tx.job, tx.change, k);
    } else if tx.CommitAudit? {
      AuditCase(db, tx.p, tx.plan, k);
    } else if tx.PassVerify? {
      PassCase(db, tx.job, k);
    } else {
      QuietCase(db, tx);
      SameJobs(db, Exec(db, tx), k);
    }
  }

  // ---------------------------------------------------------------- the window

  /** No transaction of the window disturbs the SKU. */
  ghost predicate Undisturbed(db: Db, txs: seq<Tx>, k: int)
    requires EnabledAll(db, txs)
    decreases |txs|
  {
    txs == [] || (!Disturbs(db, txs[0], k) && Undisturbed(Exec(db, txs[0]), txs[1..], k))
  }

  /** The SKU is finished before the window, after it, and between any two of its transactions. */
  ghost predicate FinishedThroughout(db: Db, txs: seq<Tx>, k: int)
    requires EnabledAll(db, txs)
    decreases |txs|
  {
    J.AllDoneNow(db, k) && (txs == [] || FinishedThroughout(Exec(db, txs[0]), txs[1..], k))
  }

  /** From the job list on, a SKU stays finished throughout a window if and only if nothing in it disturbs it. */
  lemma {:induction false} WindowIffUndisturbed(db: Db, txs: seq<Tx>, k: int)
    requires EnabledAll(db, txs) && J.AllDoneNow(db, k)
    ensures FinishedThroughout(db, txs, k) <==> Undisturbed(db, txs, k)
    decreases |txs|
  {
    if txs != [] {
      FinishedIffUndisturbed(db, txs[0], k);
      if !Disturbs(db, txs[0], k) {
        WindowIffUndisturbed(Exec(db, txs[0]), txs[1..], k);
      } else if txs[1..] == [] {
        assert !FinishedThroughout(Exec(db, txs[0]), [], k);
      }
    }
  }

  lemma {:induction false} FinishedAtEnd(db: Db, txs: seq<Tx>, k: int)
    requires EnabledAll(db, txs) && FinishedThroughout(db, txs, k)
    ensures J.AllDoneNow(ExecAll(db, txs), k)
    decreases |txs|
  {
    if txs != [] {
      FinishedAtEnd(Exec(db, txs[0]), txs[1..], k);
    }
  }

  /**
   * An ack that listed the jobs as finished completes its SKU lawfully, whatever commits between
   * the list and the completing transaction, when none of it disturbs the SKU; and the completing
   * transaction is lawful exactly when the SKU is still finished as it commits.
   */
  lemma UndisturbedWindowCompletesLawfully(db: Db, txs: seq<Tx>, k: int)
    requires EnabledAll(db, txs) && J.AllDoneNow(db, k)
    ensures var d := ExecAll(db, txs);
            && EnabledAll(db, txs + [CompleteSku(k)])
            && (J.AllDoneNow(ExecAll(db, txs + [CompleteSku(k)]), k) <==> J.AllDoneNow(d, k))
            && (Undisturbed(db, txs, k) ==> J.AllDoneNow(ExecAll(db, txs + [CompleteSku(k)]), k))
  {
    var d := ExecAll(db, txs);
    ThenTx(db, txs, CompleteSku(k));
    QuietCase(d, CompleteSku(k));
    SameJobs(d, Exec(d, CompleteSku(k)), k);
    WindowIffUndisturbed(db, txs, k);
    if Undisturbed(db, txs, k) {
      FinishedAtEnd(db, txs, k);
    }
  }
}
