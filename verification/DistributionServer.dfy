/**
 * The services as the source writes them: table updates one statement after another inside a
 * transaction that is undone when it fails. Each method is proved to leave exactly the database
 * and give exactly the answer of the corresponding function in module ServiceCalls.
 */
module DistributionServer {
  import opened Prelude
  import opened Workflow
  import opened Distribution
  import Calls = ServiceCalls
  import I = DistributionInvariant

  /** Logging an event and then the rest is logging them all. */
  lemma LogSplit(before: seq<Entry>, sku: int, e: Event, all: seq<Event>)
    requires all != [] && all[0] == e
    ensures before + Stamp(sku, [e]) + Stamp(sku, all[1..]) == before + Stamp(sku, all)
  {
  }

  class Server {
    var skus: map<int, Sku>
    var codes: map<string, int>
    var versions: seq<Version>
    var actions: map<string, AuditAction>
    var jobs: seq<Job>
    var attempts: map<string, Attempt>
    var incidents: seq<Incident>
    var events: seq<Entry>

    constructor ()
      ensures State() == EMPTY && Valid()
    {
      skus, codes, versions, actions := map[], map[], [], map[];
      jobs, attempts, incidents, events := [], map[], [], [];
      new;
      I.InvariantAtStart();
    }

    function State(): Db
      reads this
    {
      Db(skus, codes, versions, actions, jobs, attempts, incidents, events)
    }

    /** What every call below keeps, and so may be relied on between calls. */
    ghost predicate Valid()
      reads this
    {
      I.Invariant(State())
    }

    // -------------------------------------------------------------- repositories

    /** Rolls a failed transaction back. */
    method Rollback(saved: Db)
      modifies this
      ensures State() == saved
    {
      skus, codes, versions, actions := saved.skus, saved.codes, saved.versions, saved.actions;
      jobs, attempts, incidents, events := saved.jobs, saved.attempts, saved.incidents, saved.events;
    }

    method Append(sku: int, event: Event)
      modifies this`events
      ensures events == old(events) + Stamp(sku, [event])
    {
      events := events + [Entry(sku, event)];
    }

    method CasWorkflowStatus(id: int, expected: Status, next: Status) returns (updated: bool)
      modifies this`skus
      ensures updated == Cas(old(skus), id, expected, next).Some?
      ensures skus == if updated then Cas(old(skus), id, expected, next).value else old(skus)
    {
      updated := id in skus && skus[id].status == expected;
      if updated {
        skus := skus[id := skus[id].(status := next)];
      }
    }

    method InsertIdempotent(id: string, a: AuditAction) returns (ok: bool)
      modifies this`actions
      ensures ok == InsertAction(old(actions), id, a).Some?
      ensures actions == if ok then InsertAction(old(actions), id, a).value else old(actions)
    {
      ok := true;
      if id !in actions {
        ok := !(exists x :: x in actions && actions[x].version == a.version && actions[x].stage == a.stage);
        if ok {
          actions := actions[id := a];
        }
      }
    }

    method CreateBatch(batch: seq<Job>)
      modifies this`jobs
      ensures jobs == Enqueue(old(jobs), batch)
    {
      for i := 0 to |batch|
        invariant Enqueue(jobs, batch[i..]) == Enqueue(old(jobs), batch)
      {
        assert batch[i..][0] == batch[i] && batch[i..][1..] == batch[i + 1..];
        if !KeyTaken(jobs, batch[i].key) {
          jobs := jobs + [batch[i]];
        }
      }
    }

    /** One sku.status_changed transaction; false when the CAS missed and nothing was written. */
    method Move(sku: int, from: Status, to: Status) returns (updated: bool)
      modifies this`skus, this`events
      ensures updated == MoveTx(old(State()), sku, from, to).Some?
      ensures State() == OrElse(MoveTx(old(State()), sku, from, to), old(State()))
    {
      updated := CasWorkflowStatus(sku, from, to);
      if updated {
        Append(sku, StatusChanged(Edge(from, to)));
      }
    }

    // -------------------------------------------------------------- service/sku.go

    method Create(sku: int, code: string, name: string) returns (r: Outcome<()>)
      requires Valid()
      modifies this
      ensures Calls.Reply(State(), r) == Calls.Create(old(State()), sku, code, name)
      ensures Valid()
    {
      I.InvariantStep(State(), {}, Calls.Timed(0, Calls.CreateCall(sku, code, name)));
      if code == "" || name == "" {
        return Err(InvalidRequest);
      }
      if code in codes || sku in skus {
        return Err(InvalidRequest);
      }
      skus := skus[sku := Sku(Draft, None)];
      codes := codes[code := sku];
      Append(sku, SkuCreated);
      r := Ok(());
    }

    method TransitionStatus(sku: int, expected: Status, next: Status) returns (r: Outcome<()>)
      requires Valid()
      modifies this
      ensures Calls.Reply(State(), r) == Calls.Transition(old(State()), sku, expected, next)
      ensures Valid()
    {
      I.InvariantStep(State(), {}, Calls.Timed(0, Calls.TransitionCall(sku, expected, next)));
      if sku !in skus {
        r := Err(NotFound);
      } else if skus[sku].status != expected {
        r := Err(InvalidTransition);
      } else if !CanTransition(expected, next) {
        r := Err(InvalidTransition);
      } else {
        assert Calls.Transition(State(), sku, expected, next) ==
               Calls.Reply(OrElse(MoveTx(State(), sku, expected, next), State()), Ok(()));
        var updated := Move(sku, expected, next);
        r := if updated then Ok(()) else Err(InvalidTransition);
      }
    }

    // -------------------------------------------------------------- service/audit.go

    method BuildJobs(p: SubmitParams, sku: int, targets: seq<string>) returns (created: seq<Job>)
      ensures created == NewJobs(p, sku, targets)
    {
      created := [];
      for i := 0 to |targets|
        invariant created == NewJobs(p, sku, targets[..i])
      {
        created := created + [NewJob(p, sku, targets[i])];
        assert targets[..i + 1] == targets[..i] + [targets[i]];
      }
      assert targets[..|targets|] == targets;
    }

    method AppendCreated(sku: int, created: seq<Job>)
      modifies this`events
      ensures events == old(events) + Stamp(sku, CreatedEvents(created))
    {
      for i := 0 to |created|
        invariant events == old(events) + Stamp(sku, CreatedEvents(created[..i]))
      {
        Append(sku, JobCreated(created[i].key));
        assert created[..i + 1] == created[..i] + [created[i]];
        assert Stamp(sku, CreatedEvents(created[..i + 1])) ==
               Stamp(sku, CreatedEvents(created[..i])) + Stamp(sku, [JobCreated(created[i].key)]);
      }
      assert created[..|created|] == created;
    }

    /** The RunInTx body of Submit, with its two CAS updates for a stage B approval. */
    method CommitAudit(p: SubmitParams, plan: Plan) returns (r: Outcome<()>)
      modifies this
      ensures var tx := AuditTx(old(State()), p, plan);
              && (tx.Ok? ==> r == Ok(()) && State() == tx.value)
              && (tx.Err? ==> r == Err(tx.error) && State() == old(State()))
    {
      var saved := State();
      var updated := CasWorkflowStatus(plan.sku, plan.from, plan.next);
      if !updated {
        return Err(InvalidTransition);
      }
      var inserted := InsertIdempotent(p.actionId, ActionOf(p));
      if !inserted {
        Rollback(saved);
        return Err(DuplicateAudit);
      }
      WriteAudit(p, plan);
      assert skus == saved.skus[plan.sku := saved.skus[plan.sku].(status := Landing(plan.next))];
      r := Ok(());
    }

    /** The rest of the transaction once the SKU has moved and the action is in. */
    method WriteAudit(p: SubmitParams, plan: Plan)
      requires plan.sku in skus && skus[plan.sku].status == plan.next
      modifies this`skus, this`jobs, this`events
      ensures skus == old(skus)[plan.sku := old(skus)[plan.sku].(status := Landing(plan.next))]
      ensures jobs == if plan.next == AuditBApproved then Enqueue(old(jobs), plan.jobs) else old(jobs)
      ensures events == old(events) + Stamp(plan.sku, AuditEvents(p, plan))
    {
      Append(plan.sku, AuditSubmitted(p.actionId));
      if plan.next == AuditBApproved {
        SecondHop(plan);
      } else {
        Append(plan.sku, StatusChanged(Edge(plan.from, plan.next)));
        assert skus == old(skus)[plan.sku := old(skus)[plan.sku].(status := plan.next)];
      }
      LogSplit(old(events), plan.sku, AuditSubmitted(p.actionId), AuditEvents(p, plan));
    }

    /**
     * From AuditB_Approved on to Approved_PendingVerify: the jobs and both status events. The
     * second CAS sees the transaction's own first write, so it cannot miss.
     */
    method SecondHop(plan: Plan)
      requires plan.sku in skus && skus[plan.sku].status == AuditBApproved
      modifies this`skus, this`jobs, this`events
      ensures skus == old(skus)[plan.sku := old(skus)[plan.sku].(status := ApprovedPendingVerify)]
      ensures jobs == Enqueue(old(jobs), plan.jobs)
      ensures events == old(events) + Stamp(plan.sku, CreatedEvents(plan.jobs) +
                [StatusChanged(Edge(plan.from, AuditBApproved)),
                 StatusChanged(Edge(AuditBApproved, ApprovedPendingVerify))])
    {
      var updated := CasWorkflowStatus(plan.sku, AuditBApproved, ApprovedPendingVerify);
      assert updated;
      CreateBatch(plan.jobs);
      AppendCreated(plan.sku, plan.jobs);
      Append(plan.sku, StatusChanged(Edge(plan.from, AuditBApproved)));
      Append(plan.sku, StatusChanged(Edge(AuditBApproved, ApprovedPendingVerify)));
    }

    /** Phase 1 of Submit: the reads and guards before the transaction, and the jobs it will create. */
    method CheckSubmission(p: SubmitParams, targets: Option<seq<string>>) returns (plan: Outcome<Plan>)
      requires p.versionId > 0
      ensures plan == Validate(State(), State(), p, targets)
    {
      if p.versionId > |versions| {
        return Err(NotFound);
      }
      var ver := versions[p.versionId - 1];
      if ver.sku !in skus {
        return Err(NotFound);
      }
      var sku := skus[ver.sku];
      if sku.current != Some(p.versionId) {
        return Err(VersionConflict);
      }
      if ver.hash != p.hash {
        return Err(HashMismatch);
      }
      if !ver.stable {
        return Err(AssetNotStable);
      }
      if ver.missing {
        return Err(AssetMissing);
      }
      var next := ExpectedNext(p.stage, p.decision);
      if next.Err? {
        return Err(next.error);
      }
      if !CanTransition(sku.status, next.value) {
        return Err(InvalidTransition);
      }
      var created := [];
      if next.value == AuditBApproved {
        if targets == None || targets.value == [] {
          return Err(InvalidRequest);
        }
        created := BuildJobs(p, ver.sku, targets.value);
      }
      plan := Ok(Plan(ver.sku, sku.status, next.value, created));
    }

    method Submit(p: SubmitParams, targets: Option<seq<string>>) returns (r: Outcome<Calls.Submission>)
      requires Valid()
      modifies this
      ensures Calls.Reply(State(), r) == Calls.Submit(old(State()), p, targets)
      ensures Valid()
    {
      I.InvariantStep(State(), {}, Calls.Timed(0, Calls.SubmitCall(p, targets)));
      if p.actionId == "" || p.versionId <= 0 || p.hash == "" {
        return Err(InvalidRequest);
      }
      if p.actionId in actions {
        return Ok(Calls.Submission(actions[p.actionId], []));
      }
      var plan := CheckSubmission(p, targets);
      if plan.Err? {
        return Err(plan.error);
      }
      var committed := CommitAudit(p, plan.value);
      if committed.Err? {
        return Err(committed.error);
      }
      r := Ok(Calls.Submission(actions[p.actionId], plan.value.jobs));
    }

    // -------------------------------------------------------------- service/agent.go

    method Sync(p: Calls.SyncParams) returns (r: Outcome<int>)
      requires Valid()
      modifies this
      ensures Calls.Reply(State(), r) == Calls.Sync(old(State()), p)
      ensures Valid()
    {
      I.InvariantStep(State(), {}, Calls.Timed(0, Calls.SyncCall(p)));
      if p.agent == "" || p.code == "" || p.hash == "" || p.size <= 0 {
        return Err(InvalidRequest);
      }
      if p.size > Calls.ONE_HUNDRED_MB && (Calls.Missing(p.headHash) || Calls.Missing(p.tailHash)) {
        return Err(InvalidRequest);
      }
      if p.code !in codes || codes[p.code] !in skus {
        return Err(NotFound);
      }
      var sku := codes[p.code];
      var num := NextNum(sku);
      AddVersion(sku, num, p.hash, p.stable);
      r := Ok(|versions|);
    }

    /** One more than the number of the current version, or one. */
    method NextNum(sku: int) returns (num: int)
      requires sku in skus
      ensures num == Calls.NextVersionNum(State(), sku)
    {
      num := 1;
      var current := skus[sku].current;
      if current.Some? && 1 <= current.value <= |versions| {
        num := versions[current.value - 1].num + 1;
      }
    }

    /** The RunInTx body of Sync. */
    method AddVersion(sku: int, num: int, hash: string, stable: bool)
      requires sku in skus
      modifies this`versions, this`skus, this`events
      ensures State() == SyncTx(old(State()), sku, num, hash, stable)
    {
      versions := versions + [Version(sku, num, hash, stable, false)];
      skus := skus[sku := skus[sku].(current := Some(|versions|))];
      Append(sku, if stable then VersionStable(num) else VersionCreated(num));
    }

    /** JobRepo.PullPending: lock the oldest Pending job and start an attempt on it. */
    method PullPending(attempt: string, expiry: int) returns (r: Outcome<Option<nat>>)
      modifies this
      ensures match Calls.FirstPending(old(jobs), 0)
              case None => r == Ok(None) && State() == old(State())
              case Some(j) =>
                if attempt in old(attempts) then r == Err(Internal) && State() == old(State())
                else r == Ok(Some(j)) && State() == JobTx(old(State()), j, Claimed(attempt, expiry))
    {
      var j := 0;
      while j < |jobs| && jobs[j].status != Pending
        invariant 0 <= j <= |jobs|
        invariant Calls.FirstPending(jobs, 0) == Calls.FirstPending(jobs, j)
      {
        j := j + 1;
      }
      if j == |jobs| {
        return Ok(None);
      }
      if attempt in attempts {
        return Err(Internal);
      }
      attempts := attempts[attempt := Attempt(j, expiry, false)];
      jobs := jobs[j := jobs[j].(status := Running, attempt := Some(attempt))];
      Append(jobs[j].sku, JobRunning(j, attempt));
      r := Ok(Some(j));
    }

    static lemma PullKeeps(db: Db, now: int, agent: string, lease: Option<int>, attempt: string)
      requires I.Invariant(db)
      ensures I.Invariant(Calls.Pull(db, now, agent, lease, attempt).db)
    {
      I.InvariantStep(db, {}, Calls.Timed(now, Calls.PullCall(agent, lease, attempt)));
    }

    method PullJob(now: int, agent: string, lease: Option<int>, attempt: string) returns (r: Outcome<Option<nat>>)
      requires Valid()
      modifies this
      ensures Calls.Reply(State(), r) == Calls.Pull(old(State()), now, agent, lease, attempt)
      ensures Valid()
    {
      ghost var was := State();
      PullKeeps(was, now, agent, lease, attempt);
      if Calls.Blank(agent) || !Calls.ValidLease(lease) {
        return Err(InvalidRequest);
      }
      r := PullPending(attempt, now + lease.value);
      if r.Err? || r.value.None? {
        assert State() == was;
        return;
      }
      var sku := jobs[r.value.value].sku;
      assert sku == was.jobs[r.value.value].sku;
      var _ := Move(sku, Approved, DistributionRunning);
    }

    method Heartbeat(now: int, attempt: string, lease: Option<int>) returns (r: Outcome<int>)
      requires Valid()
      modifies this
      ensures Calls.Reply(State(), r) == Calls.Heartbeat(old(State()), now, attempt, lease)
      ensures Valid()
    {
      I.InvariantStep(State(), {}, Calls.Timed(now, Calls.HeartbeatCall(attempt, lease)));
      if Calls.Blank(attempt) {
        return Err(InvalidRequest);
      }
      if attempt !in attempts || attempts[attempt].job >= |jobs| {
        return Err(NotFound);
      }
      if jobs[attempts[attempt].job].attempt != Some(attempt) || attempts[attempt].lease < now {
        return Err(AttemptExpired);
      }
      if !Calls.ValidLease(lease) {
        return Err(InvalidRequest);
      }
      attempts := attempts[attempt := attempts[attempt].(lease := now + lease.value)];
      r := Ok(now + lease.value);
    }

    /** policy.Engine.SKUCompleted over ListBySKUID. */
    method AllDone(sku: int) returns (done: bool)
      ensures done == Calls.SkuCompleted(jobs, sku)
    {
      var found := false;
      for i := 0 to |jobs|
        invariant found == exists k :: 0 <= k < i && jobs[k].sku == sku
        invariant forall k :: 0 <= k < i && jobs[k].sku == sku ==> jobs[k].status == Done
      {
        if jobs[i].sku == sku {
          found := true;
          if jobs[i].status != Done {
            return false;
          }
        }
      }
      done := found;
    }

    method StillVerifying(sku: int) returns (verifying: bool)
      ensures verifying == Calls.AnyVerifying(jobs, sku)
    {
      for i := 0 to |jobs|
        invariant forall k :: 0 <= k < i ==> !(jobs[k].sku == sku && jobs[k].verify == Verifying)
      {
        if jobs[i].sku == sku && jobs[i].verify == Verifying {
          return true;
        }
      }
      verifying := false;
    }

    method TryCompleteSku(sku: int) returns (r: Outcome<()>)
      modifies this
      ensures Calls.Reply(State(), r) == Calls.TryComplete(old(State()), sku)
    {
      var done := AllDone(sku);
      if !done {
        return Ok(());
      }
      var verifying := StillVerifying(sku);
      if verifying {
        return Ok(());
      }
      var updated := Move(sku, DistributionRunning, Completed);
      r := if updated then Ok(()) else Err(InvalidTransition);
    }

    /** The success branch of an ack; the verification request is a statement of its own. */
    method FinishJob(j: nat, attempt: string, verifyOn: set<string>)
      requires j < |jobs| && attempt in attempts
      modifies this`jobs, this`attempts, this`events
      ensures State() == JobTx(Calls.AskVerify(old(State()), j, verifyOn), j, Finished(attempt))
    {
      jobs := jobs[j := jobs[j].(status := Done)];
      attempts := attempts[attempt := attempts[attempt].(acked := true)];
      if jobs[j].target in verifyOn {
        jobs := jobs[j := jobs[j].(verify := Verifying)];
      }
      Append(jobs[j].sku, JobDone(j));
    }

    /** The failure branch of an ack: the job fails and an incident opens. */
    method FailJob(j: nat, attempt: string)
      requires j < |jobs| && attempt in attempts
      modifies this`jobs, this`attempts, this`incidents, this`events
      ensures State() == JobTx(old(State()), j, Flunked(attempt))
    {
      var sku := jobs[j].sku;
      jobs := jobs[j := jobs[j].(status := Fail)];
      attempts := attempts[attempt := attempts[attempt].(acked := true)];
      incidents := incidents + [Incident(sku, j, Open)];
      Append(sku, JobFailed(j));
      Append(sku, IncidentCreated(|incidents| - 1));
      assert Stamp(sku, [JobFailed(j)]) + Stamp(sku, [IncidentCreated(|incidents| - 1)]) ==
             Stamp(sku, [JobFailed(j), IncidentCreated(|incidents| - 1)]);
    }

    method AckJob(p: Calls.AckParams, verifyOn: set<string>) returns (r: Outcome<()>)
      requires Valid()
      modifies this
      ensures Calls.Reply(State(), r) == Calls.Ack(old(State()), p, verifyOn)
      ensures Valid()
    {
      I.InvariantStep(State(), verifyOn, Calls.Timed(0, Calls.AckCall(p)));
      if Calls.Blank(p.attempt) {
        return Err(InvalidRequest);
      }
      if p.attempt !in attempts || attempts[p.attempt].job >= |jobs| {
        return Err(NotFound);
      }
      var j := attempts[p.attempt].job;
      if jobs[j].attempt != Some(p.attempt) {
        return Err(AttemptExpired);
      }
      var sku := jobs[j].sku;
      if p.success && Calls.EvidenceSatisfied(Calls.L1, p.evidence) {
        FinishJob(j, p.attempt, verifyOn);
        r := TryCompleteSku(sku);
      } else {
        FailJob(j, p.attempt);
        r := Ok(());
      }
    }

    // -------------------------------------------------------------- service/incident.go

    method Assign(i: nat, reason: string) returns (r: Outcome<()>)
      requires Valid()
      modifies this
      ensures Calls.Reply(State(), r) == Calls.Assign(old(State()), i, reason)
      ensures Valid()
    {
      I.InvariantStep(State(), {}, Calls.Timed(0, Calls.AssignCall(i, reason)));
      if Calls.Blank(reason) {
        return Err(InvalidRequest);
      }
      if i >= |incidents| {
        return Err(NotFound);
      }
      if incidents[i].status != Open && incidents[i].status != InProgress {
        return Err(InvalidTransition);
      }
      incidents := incidents[i := incidents[i].(status := InProgress)];
      Append(incidents[i].sku, IncidentAssigned(i));
      r := Ok(());
    }

    method Resolve(i: nat, reason: string) returns (r: Outcome<()>)
      requires Valid()
      modifies this
      ensures Calls.Reply(State(), r) == Calls.Resolve(old(State()), i, reason)
      ensures Valid()
    {
      I.InvariantStep(State(), {}, Calls.Timed(0, Calls.ResolveCall(i, reason)));
      if Calls.Blank(reason) {
        return Err(InvalidRequest);
      }
      if i >= |incidents| {
        return Err(NotFound);
      }
      if incidents[i].status != InProgress {
        return Err(InvalidTransition);
      }
      incidents := incidents[i := incidents[i].(status := Resolved)];
      Append(incidents[i].sku, IncidentResolved(i));
      r := Ok(());
    }
  }
}
