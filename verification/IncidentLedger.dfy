/** Incidents and the events that account for them, over runs of whole calls. */
module IncidentLedger {
  import opened Prelude
  import opened Workflow
  import opened Distribution
  import opened ServiceCalls
  import J = JobSafety

  /** How often one event occurs in the log. */
  function Count(events: seq<Entry>, e: Event): nat
    decreases |events|
  {
    if events == [] then 0
    else Count(events[..|events| - 1], e) + if Last(events).event == e then 1 else 0
  }

  /** An event that opens an incident's story: job.failed, job.exceeded_retries, verify.failed. */
  predicate IsCause(e: Event) {
    e.JobFailed? || e.JobExceeded? || e.VerifyDenied?
  }

  /** How many events open an incident's story. */
  function Causes(events: seq<Entry>): nat
    decreases |events|
  {
    if events == [] then 0
    else Causes(events[..|events| - 1]) + if IsCause(Last(events).event) then 1 else 0
  }

  lemma {:induction false} CountAppend(a: seq<Entry>, b: seq<Entry>, e: Event)
    ensures Count(a + b, e) == Count(a, e) + Count(b, e)
    ensures Causes(a + b) == Causes(a) + Causes(b)
    decreases |b|
  {
    if b == [] {
      assert a + b == a;
    } else {
      assert (a + b)[..|a + b| - 1] == a + b[..|b| - 1];
      CountAppend(a, b[..|b| - 1], e);
    }
  }

  predicate AboutIncidents(e: Event) {
    IsCause(e) || e.IncidentCreated? || e.IncidentAssigned? || e.IncidentResolved?
  }

  lemma {:induction false} CountQuiet(events: seq<Entry>, e: Event)
    requires e.IncidentCreated? || e.IncidentResolved?
    requires forall i :: 0 <= i < |events| ==> !AboutIncidents(events[i].event)
    ensures Count(events, e) == 0 && Causes(events) == 0
    decreases |events|
  {
    if events != [] {
      CountQuiet(events[..|events| - 1], e);
    }
  }

  /**
   * Every incident has exactly one incident.created event, exactly one incident.resolved event
   * when it is Resolved and none otherwise, and there are as many incidents as causes.
   */
  ghost predicate Balanced(db: Db) {
    && Causes(db.events) == |db.incidents|
    && forall i: nat :: BalancedAt(db, i)
  }

  ghost predicate BalancedAt(db: Db, i: nat) {
    && Count(db.events, IncidentCreated(i)) == (if i < |db.incidents| then 1 else 0)
    && Count(db.events, IncidentResolved(i)) ==
         (if i < |db.incidents| && db.incidents[i].status == Resolved then 1 else 0)
  }

  /** Neither an incident nor an incident event was touched. */
  ghost predicate Unrelated(db: Db, d: Db) {
    && d.incidents == db.incidents
    && db.events <= d.events
    && forall i :: |db.events| <= i < |d.events| ==> !AboutIncidents(d.events[i].event)
  }

  lemma UnrelatedBalanced(db: Db, d: Db)
    requires Balanced(db) && Unrelated(db, d)
    ensures Balanced(d)
  {
    var added := d.events[|db.events|..];
    assert d.events == db.events + added;
    CountAppend(db.events, added, IncidentCreated(0));
    CountQuiet(added, IncidentCreated(0));
    forall i: nat ensures BalancedAt(d, i) {
      assert BalancedAt(db, i);
      CountAppend(db.events, added, IncidentCreated(i));
      CountAppend(db.events, added, IncidentResolved(i));
      CountQuiet(added, IncidentCreated(i));
      CountQuiet(added, IncidentResolved(i));
    }
  }

  lemma CountOne(sku: int, a: Event, e: Event)
    ensures Count(Stamp(sku, [a]), e) == if a == e then 1 else 0
    ensures Causes(Stamp(sku, [a])) == if IsCause(a) then 1 else 0
  {
    assert Stamp(sku, [a])[..0] == [];
  }

  lemma CountPair(sku: int, a: Event, b: Event, e: Event)
    ensures Count(Stamp(sku, [a, b]), e) == (if a == e then 1 else 0) + (if b == e then 1 else 0)
    ensures Causes(Stamp(sku, [a, b])) == Causes(Stamp(sku, [a])) + Causes(Stamp(sku, [b]))
  {
    CountOne(sku, a, e);
    CountOne(sku, b, e);
    assert Stamp(sku, [a, b]) == Stamp(sku, [a]) + Stamp(sku, [b]);
    CountAppend(Stamp(sku, [a]), Stamp(sku, [b]), e);
  }

  /** One cause, one incident.created and one open incident more. */
  lemma OpenedBalanced(db: Db, d: Db, sku: int, cause: Event, incident: Incident)
    requires Balanced(db) && IsCause(cause) && incident.status == Open
    requires d.incidents == db.incidents + [incident]
    requires d.events == db.events + Stamp(sku, [cause, IncidentCreated(|db.incidents|)])
    ensures Balanced(d)
  {
    var n := |db.incidents|;
    var es := Stamp(sku, [cause, IncidentCreated(n)]);
    CountAppend(db.events, es, cause);
    CountPair(sku, cause, IncidentCreated(n), cause);
    CountOne(sku, cause, cause);
    CountOne(sku, IncidentCreated(n), cause);
    forall i: nat ensures BalancedAt(d, i) {
      assert BalancedAt(db, i);
      CountAppend(db.events, es, IncidentCreated(i));
      CountAppend(db.events, es, IncidentResolved(i));
      CountPair(sku, cause, IncidentCreated(n), IncidentCreated(i));
      CountPair(sku, cause, IncidentCreated(n), IncidentResolved(i));
    }
  }

  /** A change that opens an incident logs one cause and one incident.created. */
  lemma OpeningBalanced(db: Db, j: nat, c: JobChange)
    requires Balanced(db) && j < |db.jobs| && OpensIncident(c)
    ensures Balanced(JobTx(db, j, c))
  {
    var sku, es := db.jobs[j].sku, ChangeEvents(j, c, |db.incidents|);
    assert es == [es[0], IncidentCreated(|db.incidents|)];
    OpenedBalanced(db, JobTx(db, j, c), sku, es[0], Incident(sku, j, Open));
  }

  lemma IncidentTxBalanced(db: Db, k: nat, status: IncidentStatus, event: Event)
    requires Balanced(db) && k < |db.incidents| && db.incidents[k].status != Resolved
    requires || (status == InProgress && event == IncidentAssigned(k))
             || (status == Resolved && event == IncidentResolved(k))
    ensures Balanced(IncidentTx(db, k, status, event))
  {
    var d := IncidentTx(db, k, status, event);
    var sku := db.incidents[k].sku;
    CountAppend(db.events, Stamp(sku, [event]), event);
    CountOne(sku, event, event);
    forall i: nat ensures BalancedAt(d, i) {
      assert BalancedAt(db, i);
      CountAppend(db.events, Stamp(sku, [event]), IncidentCreated(i));
      CountAppend(db.events, Stamp(sku, [event]), IncidentResolved(i));
      CountOne(sku, event, IncidentCreated(i));
      CountOne(sku, event, IncidentResolved(i));
    }
  }

  // ---------------------------------------------------------------- each call

  lemma JobTxUnrelated(db: Db, j: nat, c: JobChange)
    requires j < |db.jobs| && !OpensIncident(c)
    ensures Unrelated(db, JobTx(db, j, c))
  {
  }

  lemma AuditTxUnrelated(db: Db, p: SubmitParams, plan: Plan)
    requires AuditTx(db, p, plan).Ok?
    ensures Unrelated(db, AuditTx(db, p, plan).value)
  {
    var es := AuditEvents(p, plan);
    assert forall i :: 0 <= i < |es| ==> !AboutIncidents(es[i]);
  }

  lemma SubmitUnrelated(db: Db, p: SubmitParams, targets: Option<seq<string>>)
    ensures Unrelated(db, Submit(db, p, targets).db)
  {
    var v := Validate(db, db, p, targets);
    if v.Ok? && AuditTx(db, p, v.value).Ok? {
      AuditTxUnrelated(db, p, v.value);
    }
  }

  lemma UnrelatedTransitive(a: Db, b: Db, c: Db)
    requires Unrelated(a, b) && Unrelated(b, c)
    ensures Unrelated(a, c)
  {
  }

  lemma MoveUnrelated(db: Db, sku: int, from: Status, to: Status)
    ensures Unrelated(db, OrElse(MoveTx(db, sku, from, to), db))
  {
  }

  lemma PullUnrelated(db: Db, now: int, agent: string, lease: Option<int>, attempt: string)
    ensures Unrelated(db, Pull(db, now, agent, lease, attempt).db)
  {
    var j := FirstPending(db.jobs, 0);
    if !Blank(agent) && ValidLease(lease) && j.Some? && attempt !in db.attempts {
      var d := JobTx(db, j.value, Claimed(attempt, now + lease.value));
      JobTxUnrelated(db, j.value, Claimed(attempt, now + lease.value));
      MoveUnrelated(d, db.jobs[j.value].sku, Approved, DistributionRunning);
      UnrelatedTransitive(db, d, Pull(db, now, agent, lease, attempt).db);
    }
  }

  lemma TryCompleteUnrelated(db: Db, sku: int)
    ensures Unrelated(db, TryComplete(db, sku).db)
  {
    MoveUnrelated(db, sku, DistributionRunning, Completed);
  }

  lemma AckBalanced(db: Db, p: AckParams, verifyOn: set<string>)
    requires Balanced(db)
    ensures Balanced(Ack(db, p, verifyOn).db)
  {
    var r := CurrentJob(db, p.attempt);
    if r.Ok? {
      if AckSucceeds(p) {
        AckDoneUnrelated(db, p, verifyOn);
        UnrelatedBalanced(db, Ack(db, p, verifyOn).db);
      } else {
        OpeningBalanced(db, r.value, Flunked(p.attempt));
      }
    }
  }

  lemma AckDoneUnrelated(db: Db, p: AckParams, verifyOn: set<string>)
    requires AckSucceeds(p)
    ensures Unrelated(db, Ack(db, p, verifyOn).db)
  {
    var r := CurrentJob(db, p.attempt);
    if r.Ok? {
      var asked := AskVerify(db, r.value, verifyOn);
      var done := JobTx(asked, r.value, Finished(p.attempt));
      JobTxUnrelated(db, r.value, VerifyAsked);
      JobTxUnrelated(asked, r.value, Finished(p.attempt));
      UnrelatedTransitive(db, asked, done);
      TryCompleteUnrelated(done, db.jobs[r.value].sku);
      UnrelatedTransitive(db, done, Ack(db, p, verifyOn).db);
    }
  }

  lemma RetryBalanced(db: Db, j: nat)
    requires Balanced(db)
    ensures Balanced(Retry(db, j))
  {
    if j < |db.jobs| {
      OpeningBalanced(db, j, Exhausted);
      JobTxUnrelated(db, j, Retried);
      UnrelatedBalanced(db, JobTx(db, j, Retried));
    }
  }

  lemma PassUnrelated(db: Db, j: nat)
    requires j < |db.jobs|
    ensures Unrelated(db, PassTx(db, j))
  {
  }

  lemma VerifyBalanced(db: Db, j: nat, passed: bool)
    requires Balanced(db)
    ensures Balanced(Verify(db, j, passed))
  {
    if j < |db.jobs| {
      OpeningBalanced(db, j, Denied);
      PassUnrelated(db, j);
      UnrelatedBalanced(db, PassTx(db, j));
    }
  }

  lemma ReapReleaseUnrelated(db: Db, now: int, j: nat)
    ensures Unrelated(db, Reap(db, now, j)) && Unrelated(db, Release(db, j))
  {
    if j < |db.jobs| {
      JobTxUnrelated(db, j, Reaped);
      JobTxUnrelated(db, j, Released);
    }
  }

  lemma IncidentCallsBalanced(db: Db, i: nat, reason: string)
    requires Balanced(db)
    ensures Balanced(Assign(db, i, reason).db) && Balanced(Resolve(db, i, reason).db)
  {
    if i < |db.incidents| && db.incidents[i].status != Resolved {
      IncidentTxBalanced(db, i, InProgress, IncidentAssigned(i));
      IncidentTxBalanced(db, i, Resolved, IncidentResolved(i));
    }
  }

  lemma TransitionUnrelated(db: Db, k: int, expected: Status, next: Status)
    ensures Unrelated(db, Transition(db, k, expected, next).db)
  {
    MoveUnrelated(db, k, expected, next);
    TransitionIsMove(db, k, expected, next);
  }

  lemma SyncUnrelated(db: Db, p: SyncParams)
    ensures Unrelated(db, Sync(db, p).db)
  {
  }

  lemma CreateUnrelated(db: Db, sku: int, code: string, name: string)
    ensures Unrelated(db, Create(db, sku, code, name).db)
  {
  }

  lemma OthersUnrelated(db: Db, verifyOn: set<string>, t: Timed)
    requires !t.call.AckCall? && !t.call.RetryPass? && !t.call.VerifyPass?
    requires !t.call.AssignCall? && !t.call.ResolveCall?
    ensures Unrelated(db, Perform(db, verifyOn, t))
  {
    if t.call.SubmitCall? {
      SubmitUnrelated(db, t.call.submit, t.call.targets);
    } else if t.call.PullCall? {
      PullUnrelated(db, t.now, t.call.agent, t.call.lease, t.call.attempt);
    } else if t.call.ReapPass? || t.call.ReleaseJobs? {
      ReapReleaseUnrelated(db, t.now, t.call.job);
    } else if t.call.TransitionCall? {
      TransitionUnrelated(db, t.call.sku, t.call.expected, t.call.next);
    } else if t.call.SyncCall? {
      SyncUnrelated(db, t.call.sync);
    } else if t.call.CreateCall? {
      CreateUnrelated(db, t.call.sku, t.call.code, t.call.name);
    }
  }

  lemma BalancedStep(db: Db, verifyOn: set<string>, t: Timed)
    requires Balanced(db)
    ensures Balanced(Perform(db, verifyOn, t))
  {
    if t.call.AckCall? {
      AckBalanced(db, t.call.ack, verifyOn);
    } else if t.call.RetryPass? {
      RetryBalanced(db, t.call.job);
    } else if t.call.VerifyPass? {
      VerifyBalanced(db, t.call.job, t.call.passed);
    } else if t.call.AssignCall? || t.call.ResolveCall? {
      IncidentCallsBalanced(db, t.call.incident, t.call.reason);
    } else {
      OthersUnrelated(db, verifyOn, t);
      UnrelatedBalanced(db, Perform(db, verifyOn, t));
    }
  }

  /** In every state reached by whole calls the incidents and their events balance. */
  lemma {:induction false} IncidentsBalance(verifyOn: set<string>, run: seq<Timed>)
    ensures Balanced(PerformAll(EMPTY, verifyOn, run))
    decreases |run|
  {
    if run == [] {
      forall i: nat ensures BalancedAt(EMPTY, i) {
      }
    } else {
      var pre := run[..|run| - 1];
      IncidentsBalance(verifyOn, pre);
      J.PerformLast(EMPTY, verifyOn, run);
      BalancedStep(PerformAll(EMPTY, verifyOn, pre), verifyOn, Last(run));
    }
  }
}
