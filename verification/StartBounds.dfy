/** How often a job can be started, and the uniqueness of job keys, over runs of whole calls. */
module StartBounds {
  import opened Prelude
  import W = Workflow
  import opened Distribution
  import opened ServiceCalls
  import J = JobSafety

  predicate Starts(e: Entry, j: nat) {
    e.event.JobRunning? && e.event.job == j
  }

  /** How many job.running events a job has. */
  function StartsOf(events: seq<Entry>, j: nat): nat
    decreases |events|
  {
    if events == [] then 0
    else StartsOf(events[..|events| - 1], j) + if Starts(Last(events), j) then 1 else 0
  }

  lemma {:induction false} StartsAppend(a: seq<Entry>, b: seq<Entry>, j: nat)
    ensures StartsOf(a + b, j) == StartsOf(a, j) + StartsOf(b, j)
    decreases |b|
  {
    if b == [] {
      assert a + b == a;
    } else {
      assert (a + b)[..|a + b| - 1] == a + b[..|b| - 1];
      StartsAppend(a, b[..|b| - 1], j);
    }
  }

  lemma {:induction false} StartsQuiet(events: seq<Entry>, j: nat)
    requires forall i :: 0 <= i < |events| ==> !Starts(events[i], j)
    ensures StartsOf(events, j) == 0
    decreases |events|
  {
    if events != [] {
      StartsQuiet(events[..|events| - 1], j);
    }
  }

  /** A job that waits has been started at most once per retry, any other once more. */
  predicate Waits(row: Job) {
    row.status == PendingVerify || row.status == Pending
  }

  ghost predicate BoundedAt(db: Db, j: nat) {
    var n := StartsOf(db.events, j);
    if j < |db.jobs| then
      && n <= db.jobs[j].retries + (if Waits(db.jobs[j]) then 0 else 1)
      && db.jobs[j].retries <= db.jobs[j].maxRetries == 3
    else
      n == 0
  }

  ghost predicate Bounded(db: Db) {
    forall j: nat :: BoundedAt(db, j)
  }

  // ---------------------------------------------------------------- steps

  /** Rows that agree on all that the bound and the keys depend on. */
  ghost predicate SameCounters(jobs: seq<Job>, jobs': seq<Job>) {
    && |jobs'| == |jobs|
    && forall j :: 0 <= j < |jobs| ==>
         && jobs'[j].status == jobs[j].status && jobs'[j].retries == jobs[j].retries
         && jobs'[j].maxRetries == jobs[j].maxRetries && jobs'[j].key == jobs[j].key
  }

  ghost predicate NoStarts(db: Db, d: Db) {
    && db.events <= d.events
    && forall i :: |db.events| <= i < |d.events| ==> !d.events[i].event.JobRunning?
  }

  lemma NoStartsCount(db: Db, d: Db, j: nat)
    requires NoStarts(db, d)
    ensures StartsOf(d.events, j) == StartsOf(db.events, j)
  {
    var added := d.events[|db.events|..];
    assert d.events == db.events + added;
    StartsAppend(db.events, added, j);
    StartsQuiet(added, j);
  }

  lemma QuietBounded(db: Db, d: Db)
    requires Bounded(db) && NoStarts(db, d) && SameCounters(db.jobs, d.jobs)
    ensures Bounded(d)
  {
    forall j: nat ensures BoundedAt(d, j) {
      assert BoundedAt(db, j);
      NoStartsCount(db, d, j);
    }
  }

  /** The guards under which the services make each change. */
  predicate Guarded(row: Job, c: JobChange) {
    match c
    case Claimed(_, _) => row.status == Pending
    case Retried => row.status in {Fail, Stale} && row.retries < row.maxRetries
    case Released => row.status == PendingVerify
    case _ => true
  }

  lemma StartsOfChange(sku: int, j: nat, c: JobChange, n: nat, i: nat)
    ensures StartsOf(Stamp(sku, ChangeEvents(j, c, n)), i) == if i == j && c.Claimed? then 1 else 0
  {
    var es := Stamp(sku, ChangeEvents(j, c, n));
    if c.Claimed? {
      assert es[..0] == [];
      assert StartsOf(es[..0], i) == 0;
    } else {
      StartsQuiet(es, i);
    }
  }

  lemma JobTxBounded(db: Db, j: nat, c: JobChange)
    requires Bounded(db) && j < |db.jobs| && Guarded(db.jobs[j], c)
    ensures Bounded(JobTx(db, j, c))
  {
    var d := JobTx(db, j, c);
    var es := Stamp(db.jobs[j].sku, ChangeEvents(j, c, |db.incidents|));
    assert d.events == db.events + es;
    forall i: nat ensures BoundedAt(d, i) {
      assert BoundedAt(db, i);
      StartsAppend(db.events, es, i);
      StartsOfChange(db.jobs[j].sku, j, c, |db.incidents|, i);
    }
  }

  lemma SubmitNoStarts(db: Db, p: SubmitParams, targets: Option<seq<string>>)
    ensures NoStarts(db, Submit(db, p, targets).db)
  {
    var v := Validate(db, db, p, targets);
    if v.Ok? {
      var es := AuditEvents(p, v.value);
      assert forall i :: 0 <= i < |es| ==> !es[i].JobRunning?;
    }
  }

  lemma SubmitRows(db: Db, p: SubmitParams, targets: Option<seq<string>>)
    ensures var d := Submit(db, p, targets).db;
            && db.jobs <= d.jobs
            && forall j :: |db.jobs| <= j < |d.jobs| ==>
                 d.jobs[j].status == PendingVerify && d.jobs[j].retries == 0 && d.jobs[j].maxRetries == 3
  {
    var v := Validate(db, db, p, targets);
    if v.Ok? {
      J.EnqueueExtends(db.jobs, v.value.jobs);
    }
  }

  lemma SubmitBounded(db: Db, p: SubmitParams, targets: Option<seq<string>>)
    requires Bounded(db)
    ensures Bounded(Submit(db, p, targets).db)
  {
    var d := Submit(db, p, targets).db;
    SubmitNoStarts(db, p, targets);
    SubmitRows(db, p, targets);
    forall j: nat ensures BoundedAt(d, j) {
      assert BoundedAt(db, j);
      NoStartsCount(db, d, j);
    }
  }

  lemma MoveQuiet(db: Db, sku: int, from: W.Status, to: W.Status)
    ensures var d := OrElse(MoveTx(db, sku, from, to), db); NoStarts(db, d) && d.jobs == db.jobs
  {
  }

  lemma PullBounded(db: Db, now: int, agent: string, lease: Option<int>, attempt: string)
    requires Bounded(db)
    ensures Bounded(Pull(db, now, agent, lease, attempt).db)
  {
    var j := FirstPending(db.jobs, 0);
    if !Blank(agent) && ValidLease(lease) && j.Some? && attempt !in db.attempts {
      var d := JobTx(db, j.value, Claimed(attempt, now + lease.value));
      JobTxBounded(db, j.value, Claimed(attempt, now + lease.value));
      MoveQuiet(d, db.jobs[j.value].sku, W.Approved, W.DistributionRunning);
      QuietBounded(d, Pull(db, now, agent, lease, attempt).db);
    }
  }

  lemma TryCompleteBounded(db: Db, sku: int)
    requires Bounded(db)
    ensures Bounded(TryComplete(db, sku).db)
  {
    MoveQuiet(db, sku, W.DistributionRunning, W.Completed);
    QuietBounded(db, TryComplete(db, sku).db);
  }

  lemma AckBounded(db: Db, p: AckParams, verifyOn: set<string>)
    requires Bounded(db)
    ensures Bounded(Ack(db, p, verifyOn).db)
  {
    var r := CurrentJob(db, p.attempt);
    if r.Ok? {
      if AckSucceeds(p) {
        var asked := AskVerify(db, r.value, verifyOn);
        JobTxBounded(db, r.value, VerifyAsked);
        JobTxBounded(asked, r.value, Finished(p.attempt));
        TryCompleteBounded(JobTx(asked, r.value, Finished(p.attempt)), db.jobs[r.value].sku);
      } else {
        JobTxBounded(db, r.value, Flunked(p.attempt));
      }
    }
  }

  lemma PassQuiet(db: Db, j: nat)
    requires j < |db.jobs|
    ensures NoStarts(db, PassTx(db, j)) && SameCounters(db.jobs, PassTx(db, j).jobs)
  {
  }

  lemma WorkersBounded(db: Db, now: int, j: nat, passed: bool)
    requires Bounded(db)
    ensures Bounded(Reap(db, now, j)) && Bounded(Retry(db, j))
    ensures Bounded(Release(db, j)) && Bounded(Verify(db, j, passed))
  {
    if j < |db.jobs| {
      JobTxBounded(db, j, Reaped);
      JobTxBounded(db, j, Exhausted);
      JobTxBounded(db, j, Denied);
      PassQuiet(db, j);
      QuietBounded(db, PassTx(db, j));
      if Guarded(db.jobs[j], Retried) {
        JobTxBounded(db, j, Retried);
      }
      if Guarded(db.jobs[j], Released) {
        JobTxBounded(db, j, Released);
      }
    }
  }

  lemma TransitionQuiet(db: Db, k: int, expected: W.Status, next: W.Status)
    ensures var d := Transition(db, k, expected, next).db; NoStarts(db, d) && d.jobs == db.jobs
  {
    MoveQuiet(db, k, expected, next);
    TransitionIsMove(db, k, expected, next);
  }

  lemma SyncQuiet(db: Db, p: SyncParams)
    ensures var d := Sync(db, p).db; NoStarts(db, d) && d.jobs == db.jobs
  {
  }

  lemma CreateQuiet(db: Db, sku: int, code: string, name: string)
    ensures var d := Create(db, sku, code, name).db; NoStarts(db, d) && d.jobs == db.jobs
  {
  }

  lemma OthersQuiet(db: Db, verifyOn: set<string>, t: Timed)
    requires !Touches(t.call)
    ensures NoStarts(db, Perform(db, verifyOn, t)) && Perform(db, verifyOn, t).jobs == db.jobs
  {
    if t.call.TransitionCall? {
      TransitionQuiet(db, t.call.sku, t.call.expected, t.call.next);
    } else if t.call.SyncCall? {
      SyncQuiet(db, t.call.sync);
    } else if t.call.CreateCall? {
      CreateQuiet(db, t.call.sku, t.call.code, t.call.name);
    }
  }

  /** The calls that write job rows. */
  predicate Touches(call: Call) {
    || call.SubmitCall? || call.PullCall? || call.AckCall?
    || call.ReapPass? || call.RetryPass? || call.VerifyPass? || call.ReleaseJobs?
  }

  lemma BoundedStep(db: Db, verifyOn: set<string>, t: Timed)
    requires Bounded(db)
    ensures Bounded(Perform(db, verifyOn, t))
  {
    if t.call.SubmitCall? {
      SubmitBounded(db, t.call.submit, t.call.targets);
    } else if t.call.PullCall? {
      PullBounded(db, t.now, t.call.agent, t.call.lease, t.call.attempt);
    } else if t.call.AckCall? {
      AckBounded(db, t.call.ack, verifyOn);
    } else if t.call.VerifyPass? {
      WorkersBounded(db, t.now, t.call.job, t.call.passed);
    } else if Touches(t.call) {
      WorkersBounded(db, t.now, t.call.job, false);
    } else {
      OthersQuiet(db, verifyOn, t);
      QuietBounded(db, Perform(db, verifyOn, t));
    }
  }

  // ---------------------------------------------------------------- keys

  lemma JobTxKeys(db: Db, j: nat, c: JobChange)
    requires j < |db.jobs| && J.KeysUnique(db.jobs)
    ensures J.KeysUnique(JobTx(db, j, c).jobs)
  {
  }

  lemma PassKeys(db: Db, j: nat)
    requires j < |db.jobs| && J.KeysUnique(db.jobs)
    ensures J.KeysUnique(PassTx(db, j).jobs)
  {
  }

  lemma ExecKeys(db: Db, tx: Tx)
    requires Enabled(db, tx) && J.KeysUnique(db.jobs)
    ensures J.KeysUnique(Exec(db, tx).jobs)
  {
    if tx.CommitAudit? {
      J.EnqueueIdempotent(db.jobs, tx.plan.jobs);
    } else if tx.ChangeJob? {
      JobTxKeys(db, tx.job, tx.change);
    } else if tx.PassVerify? {
      PassKeys(db, tx.job);
    } else {
      assert Exec(db, tx).jobs == db.jobs;
    }
  }

  /** No interleaving of transactions ever creates two jobs with one idempotent key. */
  lemma {:induction false} KeysStayUnique(db: Db, txs: seq<Tx>)
    requires EnabledAll(db, txs) && J.KeysUnique(db.jobs)
    ensures J.KeysUnique(ExecAll(db, txs).jobs)
    decreases |txs|
  {
    if txs != [] {
      ExecKeys(db, txs[0]);
      KeysStayUnique(Exec(db, txs[0]), txs[1..]);
    }
  }

  lemma KeysStep(db: Db, verifyOn: set<string>, t: Timed)
    requires J.KeysUnique(db.jobs)
    ensures J.KeysUnique(Perform(db, verifyOn, t).jobs)
  {
    var txs := CallTxs(db, verifyOn, t);
    CallIsRun(db, verifyOn, t);
    KeysStayUnique(db, txs);
  }

  // ---------------------------------------------------------------- main result

  lemma {:induction false} RunsBounded(verifyOn: set<string>, run: seq<Timed>)
    ensures Bounded(PerformAll(EMPTY, verifyOn, run))
    decreases |run|
  {
    if run != [] {
      var pre := run[..|run| - 1];
      RunsBounded(verifyOn, pre);
      J.PerformLast(EMPTY, verifyOn, run);
      BoundedStep(PerformAll(EMPTY, verifyOn, pre), verifyOn, Last(run));
    }
  }

  /** In every reachable state a job was started at most once more than it was retried, and at most four times. */
  lemma StartsAreBounded(verifyOn: set<string>, run: seq<Timed>, j: nat)
    ensures var db := PerformAll(EMPTY, verifyOn, run);
            && StartsOf(db.events, j) <= 4
            && (j < |db.jobs| ==>
                  && StartsOf(db.events, j) <= db.jobs[j].retries + 1
                  && db.jobs[j].retries <= db.jobs[j].maxRetries)
  {
    RunsBounded(verifyOn, run);
    assert BoundedAt(PerformAll(EMPTY, verifyOn, run), j);
  }
}
