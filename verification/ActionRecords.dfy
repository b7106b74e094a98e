/** Audit decisions and the rows that record them: per transaction, and over runs of whole calls. */
module ActionRecords {
  import opened Prelude
  import opened Workflow
  import opened Distribution
  import opened ServiceCalls
  import J = JobSafety
  import V = VersionSafety
  import E = CallEffects

  /**
   * A committed audit decision is on record if and only if its action id was free at commit or already
   * stood for the same decision: an id taken meanwhile keeps its row, and the decision goes unrecorded.
   */
  lemma DecisionRecordedIff(db: Db, p: SubmitParams, plan: Plan)
    requires AuditTx(db, p, plan).Ok?
    ensures var d := AuditTx(db, p, plan).value;
            && p.actionId in d.actions
            && (d.actions[p.actionId] == ActionOf(p) <==>
                  p.actionId !in db.actions || db.actions[p.actionId] == ActionOf(p))
  {
  }

  // ---------------------------------------------------------------- recorded actions stay

  /** Every action on record stays as it is. */
  ghost predicate ActionsKept(db: Db, d: Db) {
    forall x :: x in db.actions ==> x in d.actions && d.actions[x] == db.actions[x]
  }

  lemma SubmitKeepsActions(db: Db, p: SubmitParams, targets: Option<seq<string>>)
    ensures ActionsKept(db, Submit(db, p, targets).db)
  {
    if Submit(db, p, targets).db.actions != db.actions {
      V.SubmitInserts(db, p, targets);
    }
  }

  lemma ActionsStay(db: Db, verifyOn: set<string>, t: Timed)
    ensures ActionsKept(db, Perform(db, verifyOn, t))
  {
    if t.call.SubmitCall? {
      SubmitKeepsActions(db, t.call.submit, t.call.targets);
    } else {
      V.OthersKeepActions(db, verifyOn, t);
    }
  }

  lemma {:induction false} ActionsStayAll(db: Db, verifyOn: set<string>, run: seq<Timed>)
    ensures ActionsKept(db, PerformAll(db, verifyOn, run))
    decreases |run|
  {
    if run != [] {
      ActionsStay(db, verifyOn, run[0]);
      ActionsStayAll(Perform(db, verifyOn, run[0]), verifyOn, run[1..]);
    }
  }

  lemma SubmittedIsRecorded(db: Db, p: SubmitParams, targets: Option<seq<string>>)
    requires Submit(db, p, targets).result.Ok?
    ensures var r := Submit(db, p, targets);
            p.actionId in r.db.actions && r.result.value.action == r.db.actions[p.actionId]
  {
  }

  /**
   * Whatever calls come between, submitting an accepted action id again tells the caller what was
   * recorded the first time and changes nothing.
   */
  lemma SubmitIsIdempotent(
      db: Db, p: SubmitParams, targets: Option<seq<string>>, verifyOn: set<string>, run: seq<Timed>,
      again: SubmitParams, targets': Option<seq<string>>)
    requires Submit(db, p, targets).result.Ok?
    requires again.actionId == p.actionId && again.versionId > 0 && again.hash != ""
    ensures var first := Submit(db, p, targets);
            var later := PerformAll(first.db, verifyOn, run);
            Submit(later, again, targets') == Reply(later, Ok(Submission(first.result.value.action, [])))
  {
    var first := Submit(db, p, targets);
    SubmittedIsRecorded(db, p, targets);
    ActionsStayAll(first.db, verifyOn, run);
    assert p.actionId != "";
  }

  // ---------------------------------------------------------------- jobs have their approval

  /** The action that created the job is on record as the stage B approval of the job's version. */
  ghost predicate Approves(actions: map<string, AuditAction>, row: Job) {
    && row.action in actions
    && var a := actions[row.action];
    && a.version == row.version && a.stage == StageB && a.decision == Approve
  }

  ghost predicate JobsApproved(db: Db) {
    forall j :: 0 <= j < |db.jobs| ==> Approves(db.actions, db.jobs[j])
  }

  /** The jobs a validated plan creates are those of its own stage B approval. */
  lemma PlannedApproval(p: SubmitParams, plan: Plan)
    requires Validated(p, plan)
    ensures forall b :: b in plan.jobs ==>
              b.action == p.actionId && b.version == p.versionId && p.stage == StageB && p.decision == Approve
  {
  }

  lemma SubmitRecordsApproval(db: Db, p: SubmitParams, targets: Option<seq<string>>, j: nat)
    requires |db.jobs| <= j < |Submit(db, p, targets).db.jobs|
    ensures Approves(Submit(db, p, targets).db.actions, Submit(db, p, targets).db.jobs[j])
  {
    var v := Validate(db, db, p, targets);
    assert v.Ok? && Validated(p, v.value);
    PlannedApproval(p, v.value);
    J.EnqueueExtends(db.jobs, v.value.jobs);
    DecisionRecordedIff(db, p, v.value);
  }

  lemma NoNewJobs(db: Db, verifyOn: set<string>, t: Timed)
    requires !t.call.SubmitCall?
    ensures |Perform(db, verifyOn, t).jobs| == |db.jobs|
  {
    if t.call.AckCall? {
      J.AckKeepsCount(db, t.call.ack, verifyOn);
    } else {
      J.OthersMakeNoneDone(db, verifyOn, t);
    }
  }

  lemma ApprovedStep(db: Db, verifyOn: set<string>, t: Timed)
    requires JobsApproved(db)
    ensures JobsApproved(Perform(db, verifyOn, t))
  {
    var d := Perform(db, verifyOn, t);
    J.PerformKeeps(db, verifyOn, t);
    ActionsStay(db, verifyOn, t);
    forall j | 0 <= j < |d.jobs| ensures Approves(d.actions, d.jobs[j]) {
      if j < |db.jobs| {
        assert Approves(db.actions, db.jobs[j]) && J.SameJob(db.jobs[j], d.jobs[j]);
      } else if t.call.SubmitCall? {
        SubmitRecordsApproval(db, t.call.submit, t.call.targets, j);
      } else {
        NoNewJobs(db, verifyOn, t);
      }
    }
  }

  /** In every state reached by whole calls, each job's action is on record as the stage B approval of its version. */
  lemma {:induction false} JobsAreApproved(verifyOn: set<string>, run: seq<Timed>)
    ensures JobsApproved(PerformAll(EMPTY, verifyOn, run))
    decreases |run|
  {
    if run != [] {
      var pre := run[..|run| - 1];
      JobsAreApproved(verifyOn, pre);
      J.PerformLast(EMPTY, verifyOn, run);
      ApprovedStep(PerformAll(EMPTY, verifyOn, pre), verifyOn, Last(run));
    }
  }

  // ---------------------------------------------------------------- status changes have their decision

  /** The recorded decision is the one that leads to this status. */
  predicate Explains(a: AuditAction, to: Status) {
    match to
    case AuditAApproved => a.stage == StageA && a.decision == Approve
    case AuditARejected => a.stage == StageA && a.decision == Reject
    case AuditBApproved => a.stage == StageB && a.decision == Approve
    case ApprovedPendingVerify => a.stage == StageB && a.decision == Approve
    case AuditBRejected => a.stage == StageB && a.decision == Reject
    case _ => false
  }

  /** The log entry is a status change explained by action x, taken for a version of the entry's SKU. */
  ghost predicate Explained(actions: map<string, AuditAction>, versions: seq<Version>, x: string, e: Entry) {
    && e.event.StatusChanged? && x in actions && Explains(actions[x], e.event.edge.to)
    && 1 <= actions[x].version <= |versions| && versions[actions[x].version - 1].sku == e.sku
  }

  /** Between the action and the status, only job lines are logged. */
  lemma JobLine(db: Db, p: SubmitParams, k: int, d: Db, jobs: seq<Job>, n: nat)
    requires E.LogsDecision(db, p, k, d, jobs) && |db.events| < n <= |db.events| + |jobs|
    ensures d.events[n].event.JobCreated?
  {
    var i := n - |db.events| - 1;
    assert d.events[|db.events| + 1 + i] == Entry(k, JobCreated(jobs[i].key));
  }

  lemma DecisionExplains(db: Db, p: SubmitParams, d: Db, jobs: seq<Job>, n: nat)
    requires E.Decides(db, p, d) && E.LogsDecision(db, p, db.versions[p.versionId - 1].sku, d, jobs)
    requires p.decision == Approve || p.decision == Reject
    requires p.stage == StageA || p.stage == StageB
    requires |db.events| <= n < |d.events| && d.events[n].event.StatusChanged?
    ensures Explained(d.actions, d.versions, p.actionId, d.events[n])
  {
    if |db.events| < n <= |db.events| + |jobs| {
      JobLine(db, p, db.versions[p.versionId - 1].sku, d, jobs, n);
    }
  }

  /** An edge a submission logs is explained by the action it records. */
  lemma SubmitExplained(db: Db, p: SubmitParams, targets: Option<seq<string>>, n: nat)
    requires |db.events| <= n < |Submit(db, p, targets).db.events|
    requires Submit(db, p, targets).db.events[n].event.StatusChanged?
    ensures var d := Submit(db, p, targets).db; Explained(d.actions, d.versions, p.actionId, d.events[n])
  {
    var r := Submit(db, p, targets);
    if p.actionId in db.actions {
      E.SubmitRepeat(db, p, targets);
    } else if r.result.Err? {
      E.SubmitRefusal(db, p, targets);
    } else {
      E.SubmitEffect(db, p, targets);
      E.SubmitLogs(db, p, targets);
      DecisionExplains(db, p, r.db, r.result.value.jobs, n);
    }
  }

  lemma StaysExplained(db: Db, verifyOn: set<string>, rest: seq<Timed>, x: string, e: Entry)
    requires Explained(db.actions, db.versions, x, e)
    ensures Explained(PerformAll(db, verifyOn, rest).actions, db.versions, x, e)
  {
    ActionsStayAll(db, verifyOn, rest);
    assert PerformAll(db, verifyOn, rest).actions[x] == db.actions[x];
  }

  /**
   * In every run, each status change a submission wrote has on record, then and ever after, an action
   * of the stage and decision that lead to that status, for a version of that SKU.
   */
  lemma AuditEdgesExplained(verifyOn: set<string>, past: seq<Timed>, t: Timed, rest: seq<Timed>, n: nat)
    requires t.call.SubmitCall?
    requires var before, after := PerformAll(EMPTY, verifyOn, past), PerformAll(EMPTY, verifyOn, past + [t]);
             |before.events| <= n < |after.events| && after.events[n].event.StatusChanged?
    ensures var after, db := PerformAll(EMPTY, verifyOn, past + [t]), PerformAll(EMPTY, verifyOn, past + [t] + rest);
            Explained(db.actions, after.versions, t.call.submit.actionId, after.events[n])
  {
    var before, after := PerformAll(EMPTY, verifyOn, past), PerformAll(EMPTY, verifyOn, past + [t]);
    J.PerformNext(verifyOn, past, t);
    assert after == Submit(before, t.call.submit, t.call.targets).db;
    SubmitExplained(before, t.call.submit, t.call.targets, n);
    PerformAppend(EMPTY, verifyOn, past + [t], rest);
    StaysExplained(after, verifyOn, rest, t.call.submit.actionId, after.events[n]);
  }
}
