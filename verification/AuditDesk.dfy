/**
 * The audit service as the program runs it: each action reads the task, tests its guards in
 * turn and then writes the task, record, handover and event tables one after the other. Every
 * action is proved to leave exactly the store, and give exactly the refusal, of AuditTasks.
 */
module AuditDesk {
  import opened Prelude
  import opened AuditTasks

  class Desk {
    var tasks: map<int, Task>
    var handovers: seq<Handover>
    ghost const starts: map<int, Task>   // every task as it stood when the desk opened, or before

    /** Every task is sound, so all that AuditTasks proves of runs holds between any two calls. */
    ghost predicate Valid()
      reads this
    {
      AllSound(State(), starts)
    }

    function State(): Store
      reads this
    {
      Store(tasks, handovers)
    }

    /** A desk opens on any store whose tasks have been sound since some start, such as one with nothing pending. */
    constructor (s: Store, ghost starts: map<int, Task>)
      requires AllSound(s, starts)
      ensures State() == s && Valid() && this.starts == starts
    {
      tasks, handovers := s.tasks, s.handovers;
      this.starts := starts;
    }

    /** The outcome the caller sees, with the store the call left behind. */
    function Seen(refusal: Option<Refusal>): Reply
      reads this
    {
      if refusal.None? then Ok(State()) else Err(refusal.value)
    }

    /** Whether some handover of the task is still pending: a scan of the table that stops at the first. */
    method FindPending(id: int) returns (found: bool)
      ensures found == HasPending(State(), id)
    {
      found := false;
      var i := 0;
      while i < |handovers| && !found
        invariant 0 <= i <= |handovers|
        invariant found ==> 0 < i && PendingAt(State(), id, i - 1)
        invariant !found ==> forall k :: 0 <= k < i ==> !PendingAt(State(), id, k)
      {
        found := handovers[i].task == id && handovers[i].pending;
        i := i + 1;
      }
    }

    /** The guards of claim, approve, reject and transfer before the ones of their own. */
    method Check(id: int, allowed: bool, stage: Stage) returns (refusal: Option<Refusal>)
      ensures refusal == Gate(State(), id, allowed, stage)
    {
      if id !in tasks {
        return Some(NotFound);
      }
      if !allowed {
        return Some(Denied);
      }
      var active := ActiveStage(tasks[id].status);
      if active.None? || active.value != stage {
        return Some(InvalidTransition);
      }
      return None;
    }

    method CreateRecord(id: int, record: Record)
      requires id in tasks
      modifies this`tasks
      ensures tasks == old(tasks)[id := old(tasks[id]).(records := old(tasks[id]).records + [record])]
    {
      tasks := tasks[id := tasks[id].(records := tasks[id].records + [record])];
    }

    method UpdateStatus(id: int, status: TaskStatus)
      requires id in tasks
      modifies this`tasks
      ensures tasks == old(tasks)[id := old(tasks[id]).(status := status)]
    {
      tasks := tasks[id := tasks[id].(status := status)];
    }

    method UpdateHandler(id: int, handler: Option<int>)
      requires id in tasks
      modifies this`tasks
      ensures tasks == old(tasks)[id := old(tasks[id]).(handler := handler)]
    {
      tasks := tasks[id := tasks[id].(handler := handler)];
    }

    method AppendEvent(id: int, event: TaskEvent)
      requires id in tasks
      modifies this`tasks
      ensures tasks == old(tasks)[id := old(tasks[id]).(events := old(tasks[id]).events + [event])]
    {
      tasks := tasks[id := tasks[id].(events := tasks[id].events + [event])];
    }

    /** The writes all actions share: the record, the status when it changes, the handler and the event. */
    method LogAction(
        id: int, stage: Stage, kind: Kind, actor: int, status: TaskStatus, handler: Option<int>, named: Option<int>)
      requires id in tasks
      modifies this`tasks
      ensures tasks == old(tasks)[id := Logged(old(tasks[id]), stage, kind, actor, status, handler, named)]
    {
      var task := tasks[id];
      CreateRecord(id, Record(stage, kind, actor));
      if status != task.status {
        UpdateStatus(id, status);
      }
      UpdateHandler(id, handler);
      AppendEvent(id, TaskEvent(kind, actor, task.status, status, task.handler, handler, named));
      assert tasks == old(tasks)[id := Logged(task, stage, kind, actor, status, handler, named)];
    }

    method Claim(id: int, allowed: bool, stage: Stage, auditor: int) returns (refusal: Option<Refusal>)
      requires Valid()
      modifies this
      ensures Seen(refusal) == ClaimTask(old(State()), id, allowed, stage, auditor)
      ensures refusal.Some? ==> State() == old(State())
      ensures Valid()
    {
      AllStep(State(), Request(id, AuditTasks.Claim(stage, auditor), allowed, allowed), starts);
      refusal := Check(id, allowed, stage);
      if refusal.Some? {
        return;
      }
      var pending := FindPending(id);
      if pending {
        return Some(InvalidTransition);
      }
      LogAction(id, stage, Claimed, auditor, tasks[id].status, Some(auditor), None);
    }

    method Approve(id: int, allowed: bool, stage: Stage, auditor: int, next: TaskStatus)
      returns (refusal: Option<Refusal>)
      requires Valid()
      modifies this
      ensures Seen(refusal) == ApproveTask(old(State()), id, allowed, stage, auditor, next)
      ensures refusal.Some? ==> State() == old(State())
      ensures Valid()
    {
      AllStep(State(), Request(id, AuditTasks.Approve(stage, auditor, next), allowed, allowed), starts);
      refusal := Check(id, allowed, stage);
      if refusal.Some? {
        return;
      }
      if !ValidApproval(tasks[id].status, next) {
        return Some(InvalidTransition);
      }
      var pending := FindPending(id);
      if pending {
        return Some(InvalidTransition);
      }
      if next == PendingOutsource {
        tasks := tasks[id := tasks[id].(needOutsource := true)];
      }
      LogAction(id, stage, Approved, auditor, next, None, None);
      ghost var t := old(tasks[id]);
      assert tasks == old(tasks)[id := Logged(t.(needOutsource := t.needOutsource || next == PendingOutsource),
                                              stage, Approved, auditor, next, None, None)];
    }

    method Reject(id: int, allowed: bool, stage: Stage, auditor: int) returns (refusal: Option<Refusal>)
      requires Valid()
      modifies this
      ensures Seen(refusal) == RejectTask(old(State()), id, allowed, stage, auditor)
      ensures refusal.Some? ==> State() == old(State())
      ensures Valid()
    {
      AllStep(State(), Request(id, AuditTasks.Reject(stage, auditor), allowed, allowed), starts);
      refusal := Check(id, allowed, stage);
      if refusal.Some? {
        return;
      }
      var next := RejectedStatus(stage);
      if next.None? {
        return Some(InvalidRequest);
      }
      var pending := FindPending(id);
      if pending {
        return Some(InvalidTransition);
      }
      LogAction(id, stage, Rejected, auditor, next.value, tasks[id].designer, None);
    }

    method Transfer(id: int, allowed: bool, stage: Stage, from: int, to: int) returns (refusal: Option<Refusal>)
      requires Valid()
      modifies this
      ensures Seen(refusal) == TransferTask(old(State()), id, allowed, stage, from, to)
      ensures refusal.Some? ==> State() == old(State())
      ensures Valid()
    {
      AllStep(State(), Request(id, AuditTasks.Transfer(stage, from, to), allowed, allowed), starts);
      refusal := Check(id, allowed, stage);
      if refusal.Some? {
        return;
      }
      var pending := FindPending(id);
      if pending {
        return Some(InvalidTransition);
      }
      LogAction(id, stage, Transferred, from, tasks[id].status, Some(to), Some(to));
    }

    method HandOver(id: int, inLane: bool, authorized: bool, from: int, to: int) returns (refusal: Option<Refusal>)
      requires Valid()
      modifies this
      ensures Seen(refusal) == HandOverTask(old(State()), id, inLane, authorized, from, to)
      ensures refusal.Some? ==> State() == old(State())
      ensures Valid()
    {
      AllStep(State(), Request(id, AuditTasks.HandOver(from, to), inLane, authorized), starts);
      if id !in tasks {
        return Some(NotFound);
      }
      if !inLane {
        return Some(Denied);
      }
      var task := tasks[id];
      var stage := ActiveStage(task.status);
      if stage.None? {
        return Some(InvalidTransition);
      }
      if !authorized {
        return Some(Denied);
      }
      var pending := FindPending(id);
      if pending {
        return Some(InvalidTransition);
      }
      if from == to {
        return Some(InvalidRequest);
      }
      handovers := handovers + [Handover(id, from, to, true)];
      LogAction(id, stage.value, HandedOver, from, task.status, None, Some(to));
      refusal := None;
    }

    /** The guards of a takeover, in source order. */
    method CheckTakeOver(id: int, allowed: bool, handover: int, auditor: int) returns (refusal: Option<Refusal>)
      ensures refusal.Some? ==> TakeOverTask(State(), id, allowed, handover, auditor) == Err(refusal.value)
      ensures refusal.None? ==>
                && 0 <= handover < |handovers| && handovers[handover].to == auditor
                && id in tasks && ActiveStage(tasks[id].status).Some?
                && TakeOverTask(State(), id, allowed, handover, auditor) == Ok(TakenOverStore(State(), id, handover))
    {
      if handover < 0 || |handovers| <= handover {
        return Some(NotFound);
      }
      if handovers[handover].task != id {
        return Some(InvalidRequest);
      }
      if handovers[handover].to != auditor {
        return Some(InvalidRequest);
      }
      if !handovers[handover].pending {
        return Some(InvalidTransition);
      }
      if id !in tasks {
        return Some(NotFound);
      }
      if !allowed {
        return Some(Denied);
      }
      var stage := ActiveStage(tasks[id].status);
      if stage.None? {
        return Some(InvalidTransition);
      }
      return None;
    }

    method TakeOver(id: int, allowed: bool, handover: int, auditor: int) returns (refusal: Option<Refusal>)
      requires Valid()
      modifies this
      ensures Seen(refusal) == TakeOverTask(old(State()), id, allowed, handover, auditor)
      ensures refusal.Some? ==> State() == old(State())
      ensures Valid()
    {
      AllStep(State(), Request(id, AuditTasks.TakeOver(handover, auditor), allowed, allowed), starts);
      refusal := CheckTakeOver(id, allowed, handover, auditor);
      if refusal.Some? {
        return;
      }
      var task := tasks[id];
      handovers := handovers[handover := handovers[handover].(pending := false)];
      LogAction(id, ActiveStage(task.status).value, TakenOver, auditor, task.status, Some(auditor), None);
      assert State() == TakenOverStore(old(State()), id, handover);
    }
  }
}
