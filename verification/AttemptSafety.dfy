/** Leases and superseded attempts: a late agent can no longer change anything. */
module AttemptSafety {
  import opened Prelude
  import opened Distribution
  import opened ServiceCalls
  import J = JobSafety

  /** The job this attempt was made for has moved on to another attempt, or to none. */
  predicate Superseded(db: Db, a: string) {
    && a in db.attempts
    && db.attempts[a].job < |db.jobs|
    && db.jobs[db.attempts[a].job].attempt != Some(a)
  }

  /** A pull that claims the job of a current attempt supersedes it. */
  lemma PullSupersedes(db: Db, j: nat, a: string, c: JobChange)
    requires j < |db.jobs| && c.Claimed? && Enabled(db, ChangeJob(j, c))
    requires a in db.attempts && db.attempts[a].job == j
    ensures Superseded(JobTx(db, j, c), a)
  {
  }

  lemma JobTxKeepsSuperseded(db: Db, j: nat, c: JobChange, a: string)
    requires Superseded(db, a) && Enabled(db, ChangeJob(j, c))
    ensures Superseded(JobTx(db, j, c), a)
  {
  }

  lemma PassKeepsSuperseded(db: Db, j: nat, a: string)
    requires Superseded(db, a) && j < |db.jobs|
    ensures Superseded(PassTx(db, j), a)
  {
  }

  lemma SupersededStep(db: Db, tx: Tx, a: string)
    requires Superseded(db, a) && Enabled(db, tx)
    ensures Superseded(Exec(db, tx), a)
  {
    if tx.CommitAudit? {
      J.EnqueueExtends(db.jobs, tx.plan.jobs);
    } else if tx.ChangeJob? {
      JobTxKeepsSuperseded(db, tx.job, tx.change, a);
    } else if tx.PassVerify? {
      PassKeepsSuperseded(db, tx.job, a);
    }
  }

  /** No interleaving of transactions makes a superseded attempt current again. */
  lemma {:induction false} SupersededForever(db: Db, txs: seq<Tx>, a: string)
    requires Superseded(db, a) && EnabledAll(db, txs)
    ensures Superseded(ExecAll(db, txs), a)
    decreases |txs|
  {
    if txs != [] {
      SupersededStep(db, txs[0], a);
      SupersededForever(Exec(db, txs[0]), txs[1..], a);
    }
  }

  /**
   * Whatever happens after an attempt was superseded, a heartbeat or an ack that carries it is
   * refused and leaves the database as it is.
   */
  lemma SupersededIsInert(db: Db, txs: seq<Tx>, p: AckParams, now: int, lease: Option<int>, verifyOn: set<string>)
    requires Superseded(db, p.attempt) && EnabledAll(db, txs)
    ensures var d := ExecAll(db, txs);
            && Ack(d, p, verifyOn).db == d && Ack(d, p, verifyOn).result.Err?
            && Heartbeat(d, now, p.attempt, lease).db == d && Heartbeat(d, now, p.attempt, lease).result.Err?
  {
    SupersededForever(db, txs, p.attempt);
  }

  // ---------------------------------------------------------------- leases

  /** The lease of this attempt ran out before t. */
  predicate Expired(db: Db, a: string, t: int) {
    a in db.attempts && db.attempts[a].lease < t
  }

  ghost predicate ClockFrom(run: seq<Timed>, t: int) {
    && (forall i :: 0 <= i < |run| ==> t <= run[i].now)
    && forall i, j :: 0 <= i < j < |run| ==> run[i].now <= run[j].now
  }

  lemma PullKeepsLease(db: Db, now: int, agent: string, lease: Option<int>, attempt: string, a: string)
    requires a in db.attempts
    ensures var d := Pull(db, now, agent, lease, attempt).db;
            a in d.attempts && d.attempts[a].lease == db.attempts[a].lease
  {
  }

  /** A change of a job leaves the leases of the attempts on record as they are. */
  lemma JobTxKeepsLease(db: Db, j: nat, c: JobChange, a: string)
    requires a in db.attempts && Enabled(db, ChangeJob(j, c))
    ensures var d := JobTx(db, j, c); a in d.attempts && d.attempts[a].lease == db.attempts[a].lease
  {
  }

  lemma AckKeepsLease(db: Db, p: AckParams, verifyOn: set<string>, a: string)
    requires a in db.attempts
    ensures var d := Ack(db, p, verifyOn).db; a in d.attempts && d.attempts[a].lease == db.attempts[a].lease
  {
    var r := CurrentJob(db, p.attempt);
    if r.Ok? {
      var asked := AskVerify(db, r.value, verifyOn);
      JobTxKeepsLease(db, r.value, VerifyAsked, a);
      JobTxKeepsLease(db, r.value, Flunked(p.attempt), a);
      JobTxKeepsLease(asked, r.value, Finished(p.attempt), a);
    }
  }

  lemma VerifyKeepsLease(db: Db, j: nat, passed: bool)
    ensures Verify(db, j, passed).attempts == db.attempts
  {
  }

  /** No call renews an expired lease. */
  lemma LeaseUntouched(db: Db, verifyOn: set<string>, t: Timed, a: string)
    requires Expired(db, a, t.now)
    ensures a in Perform(db, verifyOn, t).attempts
    ensures Perform(db, verifyOn, t).attempts[a].lease == db.attempts[a].lease
  {
    if t.call.PullCall? {
      PullKeepsLease(db, t.now, t.call.agent, t.call.lease, t.call.attempt, a);
    } else if t.call.AckCall? {
      AckKeepsLease(db, t.call.ack, verifyOn, a);
    } else if t.call.VerifyPass? {
      VerifyKeepsLease(db, t.call.job, t.call.passed);
    } else if t.call.SubmitCall? {
      J.SubmitKeepsAttempts(db, t.call.submit, t.call.targets);
    }
  }

  /** Under a monotone clock an expired lease stays expired, and every heartbeat for it is refused. */
  lemma {:induction false} ExpiredForever(
      db: Db, verifyOn: set<string>, run: seq<Timed>, a: string, t: int, lease: Option<int>)
    requires Expired(db, a, t) && ClockFrom(run, t)
    ensures Expired(PerformAll(db, verifyOn, run), a, t)
    ensures forall now :: t <= now ==> Heartbeat(PerformAll(db, verifyOn, run), now, a, lease).result.Err?
    decreases |run|
  {
    if run != [] {
      LeaseUntouched(db, verifyOn, run[0], a);
      ExpiredForever(Perform(db, verifyOn, run[0]), verifyOn, run[1..], a, t, lease);
    }
  }
}
