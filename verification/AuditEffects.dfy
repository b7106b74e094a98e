/**
 * What each of the six audit actions answers and leaves, field by field, said of the task and the
 * handover table alone.
 */
module AuditEffects {
  import opened Prelude
  import opened AuditTasks

  /** The task stands in this audit stage. */
  ghost predicate Stands(status: TaskStatus, stage: Stage) {
    || (status == PendingAuditA && stage == StageA)
    || (status == PendingAuditB && stage == StageB)
    || (status == PendingOutsourceReview && stage == OutsourceReview)
  }

  ghost predicate Auditable(status: TaskStatus) {
    status == PendingAuditA || status == PendingAuditB || status == PendingOutsourceReview
  }

  /** Some handover of the task waits for its takeover. */
  ghost predicate Waiting(s: Store, id: int) {
    exists i :: 0 <= i < |s.handovers| && s.handovers[i].task == id && s.handovers[i].pending
  }

  /** Where an approval may send a task. */
  ghost predicate Leads(from: TaskStatus, to: TaskStatus) {
    || (from == PendingAuditA && to == PendingAuditB)
    || (from == PendingAuditA && to == PendingOutsource)
    || (Auditable(from) && to == PendingWarehouseReceive)
  }

  lemma WaitingIs(s: Store, id: int)
    ensures HasPending(s, id) <==> Waiting(s, id)
  {
    if Waiting(s, id) {
      var i :| 0 <= i < |s.handovers| && s.handovers[i].task == id && s.handovers[i].pending;
      assert PendingAt(s, id, i);
    }
  }

  /** The refusal claim, approve, reject and transfer share. */
  ghost predicate Turned(s: Store, r: Request, stage: Stage, e: Refusal) {
    if r.task !in s.tasks then e == NotFound
    else if !(r.inLane && r.authorized) then e == Denied
    else !Stands(s.tasks[r.task].status, stage) && e == InvalidTransition
  }

  ghost predicate Admitted(s: Store, r: Request, stage: Stage) {
    r.task in s.tasks && r.inLane && r.authorized && Stands(s.tasks[r.task].status, stage)
  }

  lemma GateIs(s: Store, r: Request, stage: Stage)
    ensures var g := Gate(s, r.task, r.inLane && r.authorized, stage);
            (g.None? <==> Admitted(s, r, stage)) && (g.Some? ==> Turned(s, r, stage, g.value))
  {
  }

  /** The task with one more record and event, and the status and handler they tell of. */
  function Noted(t: Task, r: Record, status: TaskStatus, handler: Option<int>, named: Option<int>): Task {
    Task(status, handler, t.designer, t.needOutsource, t.records + [r],
         t.events + [TaskEvent(r.kind, r.auditor, t.status, status, t.handler, handler, named)])
  }

  /** A claim gives the task to the auditor. */
  lemma ClaimEffect(s: Store, r: Request, stage: Stage, auditor: int)
    requires r.action == Claim(stage, auditor)
    ensures var o := Apply(s, r);
            if !Admitted(s, r, stage) then o.Err? && Turned(s, r, stage, o.error)
            else if Waiting(s, r.task) then o == Err(InvalidTransition)
            else
              var t := s.tasks[r.task];
              o == Ok(s.(tasks := s.tasks[r.task :=
                Noted(t, Record(stage, Claimed, auditor), t.status, Some(auditor), None)]))
  {
    GateIs(s, r, stage);
    WaitingIs(s, r.task);
  }

  /** An approval sends the task where it may lead and frees it; outsourcing is remembered. */
  lemma ApproveEffect(s: Store, r: Request, stage: Stage, auditor: int, next: TaskStatus)
    requires r.action == Approve(stage, auditor, next)
    ensures var o := Apply(s, r);
            if !Admitted(s, r, stage) then o.Err? && Turned(s, r, stage, o.error)
            else if !Leads(s.tasks[r.task].status, next) || Waiting(s, r.task) then o == Err(InvalidTransition)
            else
              var t := s.tasks[r.task];
              var t' := Noted(t, Record(stage, Approved, auditor), next, None, None);
              o == Ok(s.(tasks := s.tasks[r.task := t'.(needOutsource := t.needOutsource || next == PendingOutsource)]))
  {
    GateIs(s, r, stage);
    WaitingIs(s, r.task);
  }

  /** A rejection sends the task back to its designer, under the stage that rejected it; outsource review has none. */
  lemma RejectEffect(s: Store, r: Request, stage: Stage, auditor: int)
    requires r.action == Reject(stage, auditor)
    ensures var o := Apply(s, r);
            if !Admitted(s, r, stage) then o.Err? && Turned(s, r, stage, o.error)
            else if stage != StageA && stage != StageB then o == Err(InvalidRequest)
            else if Waiting(s, r.task) then o == Err(InvalidTransition)
            else
              var t := s.tasks[r.task];
              var next := if stage == StageA then RejectedByAuditA else RejectedByAuditB;
              o == Ok(s.(tasks := s.tasks[r.task :=
                Noted(t, Record(stage, Rejected, auditor), next, t.designer, None)]))
  {
    GateIs(s, r, stage);
    WaitingIs(s, r.task);
  }

  /** A transfer gives the task to the auditor it names. */
  lemma TransferEffect(s: Store, r: Request, stage: Stage, from: int, to: int)
    requires r.action == Transfer(stage, from, to)
    ensures var o := Apply(s, r);
            if !Admitted(s, r, stage) then o.Err? && Turned(s, r, stage, o.error)
            else if Waiting(s, r.task) then o == Err(InvalidTransition)
            else
              var t := s.tasks[r.task];
              o == Ok(s.(tasks := s.tasks[r.task :=
                Noted(t, Record(stage, Transferred, from), t.status, Some(to), Some(to))]))
  {
    GateIs(s, r, stage);
    WaitingIs(s, r.task);
  }

  /** A handover frees the task and leaves a pending row for the auditor it names. */
  lemma HandOverEffect(s: Store, r: Request, from: int, to: int)
    requires r.action == HandOver(from, to)
    ensures var o := Apply(s, r);
            if r.task !in s.tasks then o == Err(NotFound)
            else if !r.inLane then o == Err(Denied)
            else if !Auditable(s.tasks[r.task].status) then o == Err(InvalidTransition)
            else if !r.authorized then o == Err(Denied)
            else if Waiting(s, r.task) then o == Err(InvalidTransition)
            else if from == to then o == Err(InvalidRequest)
            else
              var t := s.tasks[r.task];
              exists stage :: Stands(t.status, stage) &&
                o == Ok(Store(s.tasks[r.task := Noted(t, Record(stage, HandedOver, from), t.status, None, Some(to))],
                              s.handovers + [Handover(r.task, from, to, true)]))
  {
    WaitingIs(s, r.task);
    if r.task in s.tasks && Auditable(s.tasks[r.task].status) {
      assert Stands(s.tasks[r.task].status, ActiveStage(s.tasks[r.task].status).value);
    }
  }

  /** A takeover of a pending row by the auditor it names closes the row and gives that auditor the task. */
  lemma TakeOverEffect(s: Store, r: Request, i: int, auditor: int)
    requires r.action == TakeOver(i, auditor)
    ensures var o := Apply(s, r);
            if i < 0 || i >= |s.handovers| then o == Err(NotFound)
            else if s.handovers[i].task != r.task || s.handovers[i].to != auditor then o == Err(InvalidRequest)
            else if !s.handovers[i].pending then o == Err(InvalidTransition)
            else if r.task !in s.tasks then o == Err(NotFound)
            else if !(r.inLane && r.authorized) then o == Err(Denied)
            else if !Auditable(s.tasks[r.task].status) then o == Err(InvalidTransition)
            else
              var t, h := s.tasks[r.task], s.handovers[i];
              exists stage :: Stands(t.status, stage) &&
                var t' := Noted(t, Record(stage, TakenOver, auditor), t.status, Some(auditor), None);
                o == Ok(Store(s.tasks[r.task := t'], s.handovers[i := Handover(h.task, h.from, h.to, false)]))
  {
    if r.task in s.tasks && Auditable(s.tasks[r.task].status) {
      assert Stands(s.tasks[r.task].status, ActiveStage(s.tasks[r.task].status).value);
    }
  }

  // ---------------------------------------------------------------- a transfer holds

  /** No call of the run that names the task is accepted. */
  ghost predicate NoneAccepted(s: Store, run: seq<Request>, id: int)
    decreases |run|
  {
    run != [] ==> (run[0].task == id ==> Apply(s, run[0]).Err?) && NoneAccepted(After(s, run[0]), run[1..], id)
  }

  /** A call that does not name the task, or is refused, leaves the task as it is. */
  lemma Untouched(s: Store, r: Request, id: int)
    requires id in s.tasks && (r.task == id ==> Apply(s, r).Err?)
    ensures id in After(s, r).tasks && After(s, r).tasks[id] == s.tasks[id]
  {
  }

  lemma {:induction false} UntouchedRun(s: Store, run: seq<Request>, id: int)
    requires id in s.tasks && NoneAccepted(s, run, id)
    ensures id in AfterAll(s, run).tasks && AfterAll(s, run).tasks[id] == s.tasks[id]
    decreases |run|
  {
    if run != [] {
      Untouched(s, run[0], id);
      UntouchedRun(After(s, run[0]), run[1..], id);
    }
  }

  /** After an accepted transfer the named auditor handles the task until a call that names the task is accepted. */
  lemma TransferHolds(s: Store, r: Request, stage: Stage, from: int, to: int, run: seq<Request>)
    requires r.action == Transfer(stage, from, to) && Apply(s, r).Ok?
    requires NoneAccepted(Apply(s, r).value, run, r.task)
    ensures var d := AfterAll(Apply(s, r).value, run);
            r.task in s.tasks && r.task in d.tasks
            && d.tasks[r.task].handler == Some(to) && d.tasks[r.task].status == s.tasks[r.task].status
  {
    TransferEffect(s, r, stage, from, to);
    UntouchedRun(Apply(s, r).value, run, r.task);
  }
}
