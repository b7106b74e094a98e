/**
 * The task-centric audit machine of service/audit_v7_service.go: six actions over a task's
 * status and handler, its audit records and events, and the shared handover table.
 */
module AuditTasks {
  import opened Prelude

  datatype TaskStatus =
    | PendingAuditA
    | PendingAuditB
    | PendingOutsourceReview
    | RejectedByAuditA
    | RejectedByAuditB
    | PendingOutsource
    | PendingWarehouseReceive
    | Elsewhere(name: string)   // every status the audit actions neither read nor write

  datatype Stage = StageA | StageB | OutsourceReview | UnknownStage(name: string)
  datatype Kind = Claimed | Approved | Rejected | Transferred | HandedOver | TakenOver

  datatype Record = Record(stage: Stage, kind: Kind, auditor: int)

  /** A task event; `named` is the auditor a transfer or a handover names. */
  datatype TaskEvent = TaskEvent(
    kind: Kind, actor: int,
    fromStatus: TaskStatus, toStatus: TaskStatus,
    fromHandler: Option<int>, toHandler: Option<int>,
    named: Option<int>)

  datatype Task = Task(
    status: TaskStatus, handler: Option<int>, designer: Option<int>, needOutsource: bool,
    records: seq<Record>, events: seq<TaskEvent>)

  datatype Handover = Handover(task: int, from: int, to: int, pending: bool)

  /** Handover ids are positions in the handover table. */
  datatype Store = Store(tasks: map<int, Task>, handovers: seq<Handover>)

  datatype Action =
    | Claim(stage: Stage, auditor: int)
    | Approve(stage: Stage, auditor: int, next: TaskStatus)
    | Reject(stage: Stage, auditor: int)
    | Transfer(stage: Stage, from: int, to: int)
    | HandOver(from: int, to: int)
    | TakeOver(handover: int, auditor: int)

  /** A call; the lane policy and the authorizer are arbitrary. */
  datatype Request = Request(task: int, action: Action, inLane: bool, authorized: bool)

  datatype Refusal = NotFound | Denied | InvalidTransition | InvalidRequest
  type Reply = Result<Store, Refusal>

  function ActiveStage(status: TaskStatus): Option<Stage> {
    match status
    case PendingAuditA => Some(StageA)
    case PendingAuditB => Some(StageB)
    case PendingOutsourceReview => Some(OutsourceReview)
    case _ => None
  }

  function RejectedStatus(stage: Stage): Option<TaskStatus> {
    match stage
    case StageA => Some(RejectedByAuditA)
    case StageB => Some(RejectedByAuditB)
    case _ => None
  }

  predicate ValidApproval(current: TaskStatus, next: TaskStatus) {
    match current
    case PendingAuditA => next == PendingAuditB || next == PendingWarehouseReceive || next == PendingOutsource
    case PendingAuditB => next == PendingWarehouseReceive
    case PendingOutsourceReview => next == PendingWarehouseReceive
    case _ => false
  }

  predicate PendingAt(s: Store, task: int, i: int) {
    0 <= i < |s.handovers| && s.handovers[i].task == task && s.handovers[i].pending
  }

  predicate HasPending(s: Store, task: int) {
    exists i :: 0 <= i < |s.handovers| && PendingAt(s, task, i)
  }

  /** The task after an action: its new status and handler, and one more record and event. */
  function Logged(
      t: Task, stage: Stage, kind: Kind, actor: int, status: TaskStatus,
      handler: Option<int>, named: Option<int>): Task
  {
    t.(status := status, handler := handler,
       records := t.records + [Record(stage, kind, actor)],
       events := t.events + [TaskEvent(kind, actor, t.status, status, t.handler, handler, named)])
  }

  function Put(s: Store, id: int, t: Task): Store {
    s.(tasks := s.tasks[id := t])
  }

  /** What claim, approve, reject and transfer test first, in this order: lane and authority, the stage. */
  function Gate(s: Store, id: int, allowed: bool, stage: Stage): Option<Refusal> {
    if id !in s.tasks then Some(NotFound)
    else if !allowed then Some(Denied)
    else if ActiveStage(s.tasks[id].status) != Some(stage) then Some(InvalidTransition)
    else None
  }

  function ClaimTask(s: Store, id: int, allowed: bool, stage: Stage, auditor: int): Reply {
    if Gate(s, id, allowed, stage).Some? then Err(Gate(s, id, allowed, stage).value)
    else if HasPending(s, id) then Err(InvalidTransition)
    else
      var t := s.tasks[id];
      Ok(Put(s, id, Logged(t, stage, Claimed, auditor, t.status, Some(auditor), None)))
  }

  function ApproveTask(s: Store, id: int, allowed: bool, stage: Stage, auditor: int, next: TaskStatus): Reply {
    if Gate(s, id, allowed, stage).Some? then Err(Gate(s, id, allowed, stage).value)
    else if !ValidApproval(s.tasks[id].status, next) then Err(InvalidTransition)
    else if HasPending(s, id) then Err(InvalidTransition)
    else
      var t := s.tasks[id].(needOutsource := s.tasks[id].needOutsource || next == PendingOutsource);
      Ok(Put(s, id, Logged(t, stage, Approved, auditor, next, None, None)))
  }

  function RejectTask(s: Store, id: int, allowed: bool, stage: Stage, auditor: int): Reply {
    if Gate(s, id, allowed, stage).Some? then Err(Gate(s, id, allowed, stage).value)
    else if RejectedStatus(stage) == None then Err(InvalidRequest)
    else if HasPending(s, id) then Err(InvalidTransition)
    else
      var t := s.tasks[id];
      Ok(Put(s, id, Logged(t, stage, Rejected, auditor, RejectedStatus(stage).value, t.designer, None)))
  }

  function TransferTask(s: Store, id: int, allowed: bool, stage: Stage, from: int, to: int): Reply {
    if Gate(s, id, allowed, stage).Some? then Err(Gate(s, id, allowed, stage).value)
    else if HasPending(s, id) then Err(InvalidTransition)
    else
      var t := s.tasks[id];
      Ok(Put(s, id, Logged(t, stage, Transferred, from, t.status, Some(to), Some(to))))
  }

  function HandOverTask(s: Store, id: int, inLane: bool, authorized: bool, from: int, to: int): Reply {
    if id !in s.tasks then Err(NotFound)
    else if !inLane then Err(Denied)
    else if ActiveStage(s.tasks[id].status) == None then Err(InvalidTransition)
    else if !authorized then Err(Denied)
    else if HasPending(s, id) then Err(InvalidTransition)
    else if from == to then Err(InvalidRequest)
    else Ok(HandedOverStore(s, id, from, to))
  }

  function HandedOverStore(s: Store, id: int, from: int, to: int): Store
    requires id in s.tasks && ActiveStage(s.tasks[id].status).Some?
  {
    var t := s.tasks[id];
    Put(s, id, Logged(t, ActiveStage(t.status).value, HandedOver, from, t.status, None, Some(to)))
      .(handovers := s.handovers + [Handover(id, from, to, true)])
  }

  function TakeOverTask(s: Store, id: int, allowed: bool, i: int, auditor: int): Reply {
    if !(0 <= i < |s.handovers|) then Err(NotFound)
    else if s.handovers[i].task != id || s.handovers[i].to != auditor then Err(InvalidRequest)
    else if !s.handovers[i].pending then Err(InvalidTransition)
    else if id !in s.tasks then Err(NotFound)
    else if !allowed then Err(Denied)
    else if ActiveStage(s.tasks[id].status) == None then Err(InvalidTransition)
    else Ok(TakenOverStore(s, id, i))
  }

  function TakenOverStore(s: Store, id: int, i: int): Store
    requires id in s.tasks && ActiveStage(s.tasks[id].status).Some? && 0 <= i < |s.handovers|
  {
    var t, to := s.tasks[id], s.handovers[i].to;
    Put(s, id, Logged(t, ActiveStage(t.status).value, TakenOver, to, t.status, Some(to), None))
      .(handovers := s.handovers[i := s.handovers[i].(pending := false)])
  }

  /** One call of the audit service: the store it leaves, or the refusal that leaves it as it is. */
  function Apply(s: Store, r: Request): Reply {
    var allowed := r.inLane && r.authorized;
    match r.action
    case Claim(stage, auditor) => ClaimTask(s, r.task, allowed, stage, auditor)
    case Approve(stage, auditor, next) => ApproveTask(s, r.task, allowed, stage, auditor, next)
    case Reject(stage, auditor) => RejectTask(s, r.task, allowed, stage, auditor)
    case Transfer(stage, from, to) => TransferTask(s, r.task, allowed, stage, from, to)
    case HandOver(from, to) => HandOverTask(s, r.task, r.inLane, r.authorized, from, to)
    case TakeOver(i, auditor) => TakeOverTask(s, r.task, allowed, i, auditor)
  }

  /** What a call leaves, refused or not. */
  function After(s: Store, r: Request): Store {
    var o := Apply(s, r);
    if o.Ok? then o.value else s
  }

  function AfterAll(s: Store, run: seq<Request>): Store
    decreases |run|
  {
    if run == [] then s else AfterAll(After(s, run[0]), run[1..])
  }

  // ---------------------------------------------------------------- what a task's logs say

  /**
   * A record and an event tell of the same action by the same auditor, taken in the stage the task
   * stood in, with what that action does: only decisions change the status, an approval along the
   * approval table and a rejection to its stage's status, back to the designer.
   */
  predicate Tells(r: Record, e: TaskEvent, designer: Option<int>) {
    && r.kind == e.kind && r.auditor == e.actor
    && ActiveStage(e.fromStatus) == Some(r.stage)
    && match r.kind
       case Claimed => e.toStatus == e.fromStatus && e.toHandler == Some(e.actor)
       case Approved => ValidApproval(e.fromStatus, e.toStatus) && e.toHandler == None
       case Rejected => RejectedStatus(r.stage) == Some(e.toStatus) && e.toHandler == designer
       case Transferred => e.toStatus == e.fromStatus && e.named.Some? && e.toHandler == e.named
       case HandedOver => e.toStatus == e.fromStatus && e.toHandler == None && e.named.Some?
       case TakenOver => e.toStatus == e.fromStatus && e.toHandler == Some(e.actor)
  }

  /** The i-th record and the i-th event tell of the same action. */
  ghost predicate Lockstep(t: Task) {
    && |t.records| == |t.events|
    && forall i :: 0 <= i < |t.records| ==> Tells(t.records[i], t.events[i], t.designer)
  }

  /** The events lead from the starting status and handler to the given ones, each taking up where the last left. */
  ghost predicate Replays(events: seq<TaskEvent>, s0: TaskStatus, h0: Option<int>, s: TaskStatus, h: Option<int>)
    decreases |events|
  {
    if events == [] then s == s0 && h == h0
    else
      var e := Last(events);
      && e.toStatus == s && e.toHandler == h
      && Replays(events[..|events| - 1], s0, h0, e.fromStatus, e.fromHandler)
  }

  /**
   * Handovers and takeovers come in adjacent pairs: after a handover the very next action is the
   * takeover, in the same stage, by the auditor the handover named.
   */
  ghost predicate Paired(t: Task)
    requires |t.records| == |t.events|
  {
    forall i :: 0 <= i < |t.records| ==> PairedAt(t, i)
  }

  ghost predicate PairedAt(t: Task, i: nat)
    requires i < |t.records| == |t.events|
  {
    var r := t.records[i];
    && (r.kind == HandedOver && i + 1 < |t.records| ==>
          && t.records[i + 1].kind == TakenOver
          && t.records[i + 1].stage == r.stage
          && t.events[i].named == Some(t.records[i + 1].auditor))
    && (r.kind == TakenOver ==> 0 < i && t.records[i - 1].kind == HandedOver)
  }

  function Decision(kind: Kind): nat {
    if kind == Approved || kind == Rejected then 1 else 0
  }

  /** How many approvals and rejections are on record. */
  function Decisions(records: seq<Record>): nat
    decreases |records|
  {
    if records == [] then 0
    else Decisions(records[..|records| - 1]) + Decision(Last(records).kind)
  }

  function Rank(status: TaskStatus): nat {
    match status
    case PendingAuditA => 2
    case PendingAuditB => 1
    case PendingOutsourceReview => 1
    case _ => 0
  }

  /** The task has all the records and events it had at `start`, and perhaps more. */
  ghost predicate Extends(t: Task, start: Task) {
    start.records <= t.records && start.events <= t.events
  }

  /** The task with only the records and events it gained since `start`. */
  function Since(t: Task, start: Task): Task
    requires |start.records| <= |t.records| && |start.events| <= |t.events|
  {
    t.(records := t.records[|start.records|..], events := t.events[|start.events|..])
  }

  /** The pending handover of task `id`, if any, is unique, has parked it, and is its latest record in `t`. */
  ghost predicate Parked(s: Store, id: int, t: Task) {
    && (forall i, j :: PendingAt(s, id, i) && PendingAt(s, id, j) ==> i == j)
    && (HasPending(s, id) <==> t.records != [] && Last(t.records).kind == HandedOver)
    && (forall i :: PendingAt(s, id, i) ==>
          && t.handler == None
          && t.records != [] && ActiveStage(t.status) == Some(Last(t.records).stage)
          && t.events != [] && Last(t.events).named == Some(s.handovers[i].to)
          && Last(t.records).auditor == s.handovers[i].from)
  }

  /** What a task's logs say about its way from `start` to where it stands. */
  ghost predicate LogsSound(t: Task, start: Task) {
    && Lockstep(t)
    && Paired(t)
    && Replays(t.events, start.status, start.handler, t.status, t.handler)
    && Decisions(t.records) + Rank(t.status) <= Rank(start.status)
  }

  /** Everything the audit actions keep about one task since it stood at `start`. */
  ghost predicate Sound(s: Store, id: int, start: Task)
    requires id in s.tasks
  {
    var t := s.tasks[id];
    && Extends(t, start)
    && LogsSound(Since(t, start), start)
    && Parked(s, id, Since(t, start))
  }

  // ---------------------------------------------------------------- one call

  /** The new action fits what the logs end with: a takeover after a handover and nothing else. */
  predicate Fits(t: Task, stage: Stage, kind: Kind, actor: int) {
    if t.records != [] && Last(t.records).kind == HandedOver then
      kind == TakenOver && Last(t.records).stage == stage && t.events != [] && Last(t.events).named == Some(actor)
    else
      kind != TakenOver
  }

  lemma LoggedPaired(t: Task, t': Task)
    requires Lockstep(t) && Paired(t) && Lockstep(t')
    requires |t'.records| == |t.records| + 1
    requires t.records <= t'.records && t.events <= t'.events
    requires Fits(t, Last(t'.records).stage, Last(t'.records).kind, Last(t'.records).auditor)
    ensures Paired(t')
  {
    forall i | 0 <= i < |t'.records| ensures PairedAt(t', i) {
      if i < |t.records| {
        assert PairedAt(t, i);
        assert t'.records[i] == t.records[i] && t'.events[i] == t.events[i];
        assert i + 1 < |t.records| ==> t'.records[i + 1] == t.records[i + 1];
      }
      assert 0 < i ==> t'.records[i - 1] == t.records[i - 1];
    }
  }

  /** Appending one record and event keeps the logs sound when it fits. */
  lemma LoggedKeeps(
      t: Task, start: Task, stage: Stage, kind: Kind, actor: int, status: TaskStatus,
      handler: Option<int>, named: Option<int>)
    requires LogsSound(t, start)
    requires Fits(t, stage, kind, actor)
    requires Tells(Record(stage, kind, actor),
                   TaskEvent(kind, actor, t.status, status, t.handler, handler, named), t.designer)
    requires Decision(kind) + Rank(status) <= Rank(t.status)
    ensures LogsSound(Logged(t, stage, kind, actor, status, handler, named), start)
  {
    var t' := Logged(t, stage, kind, actor, status, handler, named);
    LoggedPaired(t, t');
    assert t'.records[..|t'.records| - 1] == t.records;
    assert t'.events[..|t'.events| - 1] == t.events;
  }

  /** What is logged now is logged since. */
  lemma LoggedSince(
      t: Task, start: Task, stage: Stage, kind: Kind, actor: int, status: TaskStatus,
      handler: Option<int>, named: Option<int>)
    requires Extends(t, start)
    ensures var t' := Logged(t, stage, kind, actor, status, handler, named);
            && Extends(t', start)
            && Since(t', start) == Logged(Since(t, start), stage, kind, actor, status, handler, named)
  {
  }

  /** An action other than handover and takeover finds no pending handover and leaves none. */
  lemma PlainStep(
      s: Store, id: int, start: Task, stage: Stage, kind: Kind, actor: int, status: TaskStatus,
      handler: Option<int>, named: Option<int>, flag: bool)
    requires id in s.tasks && Sound(s, id, start) && !HasPending(s, id)
    requires kind != HandedOver && kind != TakenOver
    requires var t := s.tasks[id];
             && Tells(Record(stage, kind, actor),
                      TaskEvent(kind, actor, t.status, status, t.handler, handler, named), t.designer)
             && Decision(kind) + Rank(status) <= Rank(t.status)
    ensures var t := s.tasks[id].(needOutsource := flag);
            Sound(Put(s, id, Logged(t, stage, kind, actor, status, handler, named)), id, start)
  {
    var t := s.tasks[id].(needOutsource := flag);
    SameLogs(Since(s.tasks[id], start), Since(t, start));
    LoggedSince(t, start, stage, kind, actor, status, handler, named);
    LoggedKeeps(Since(t, start), start, stage, kind, actor, status, handler, named);
    var s' := Put(s, id, Logged(t, stage, kind, actor, status, handler, named));
    assert forall i :: PendingAt(s', id, i) == PendingAt(s, id, i);
    assert !HasPending(s', id);
  }

  lemma SameLogs(t: Task, t': Task)
    requires t'.records == t.records && t'.events == t.events && t'.designer == t.designer
    requires Lockstep(t) && Paired(t)
    ensures Lockstep(t') && Paired(t')
  {
    assert forall i :: 0 <= i < |t.records| ==> PairedAt(t, i) ==> PairedAt(t', i);
  }

  /** What a handover leaves: the task parked and its row, the only pending one, at the end of the table. */
  lemma HandOverStep(s: Store, id: int, from: int, to: int, start: Task)
    requires id in s.tasks && Sound(s, id, start)
    requires ActiveStage(s.tasks[id].status).Some? && !HasPending(s, id)
    ensures Sound(HandedOverStore(s, id, from, to), id, start)
    ensures PendingAt(HandedOverStore(s, id, from, to), id, |s.handovers|)
  {
    var t := s.tasks[id];
    var s' := HandedOverStore(s, id, from, to);
    LoggedSince(t, start, ActiveStage(t.status).value, HandedOver, from, t.status, None, Some(to));
    LoggedKeeps(Since(t, start), start, ActiveStage(t.status).value, HandedOver, from, t.status, None, Some(to));
    assert PendingAt(s', id, |s.handovers|);
    forall i | PendingAt(s', id, i) ensures i == |s.handovers| {
      assert i < |s.handovers| ==> PendingAt(s, id, i);
    }
  }

  /** What a takeover of the pending row leaves: the named auditor on the task, and nothing pending. */
  lemma TakeOverStep(s: Store, id: int, i: int, start: Task)
    requires id in s.tasks && Sound(s, id, start) && PendingAt(s, id, i)
    ensures ActiveStage(s.tasks[id].status).Some?
    ensures Sound(TakenOverStore(s, id, i), id, start) && !HasPending(TakenOverStore(s, id, i), id)
  {
    var t := s.tasks[id];
    var to := s.handovers[i].to;
    assert HasPending(s, id);
    LoggedSince(t, start, ActiveStage(t.status).value, TakenOver, to, t.status, Some(to), None);
    LoggedKeeps(Since(t, start), start, ActiveStage(t.status).value, TakenOver, to, t.status, Some(to), None);
    var s' := TakenOverStore(s, id, i);
    forall k ensures !PendingAt(s', id, k) {
      assert PendingAt(s', id, k) ==> PendingAt(s, id, k) && k != i;
    }
  }

  /** A call leaves other tasks, their logs and their handovers alone. */
  lemma OtherTaskStep(s: Store, r: Request, id: int, start: Task)
    requires id in s.tasks && id != r.task && Sound(s, id, start)
    ensures id in After(s, r).tasks && After(s, r).tasks[id] == s.tasks[id] && Sound(After(s, r), id, start)
  {
    var s' := After(s, r);
    assert forall i :: PendingAt(s', id, i) <==> PendingAt(s, id, i);
    assert HasPending(s', id) <==> HasPending(s, id);
  }

  lemma ApproveStep(s: Store, id: int, allowed: bool, stage: Stage, auditor: int, next: TaskStatus, start: Task)
    requires id in s.tasks && Sound(s, id, start)
    ensures var o := ApproveTask(s, id, allowed, stage, auditor, next);
            o.Ok? ==> id in o.value.tasks && Sound(o.value, id, start)
  {
    if ApproveTask(s, id, allowed, stage, auditor, next).Ok? {
      var flag := s.tasks[id].needOutsource || next == PendingOutsource;
      PlainStep(s, id, start, stage, Approved, auditor, next, None, None, flag);
    }
  }

  lemma RejectStep(s: Store, id: int, allowed: bool, stage: Stage, auditor: int, start: Task)
    requires id in s.tasks && Sound(s, id, start)
    ensures var o := RejectTask(s, id, allowed, stage, auditor);
            o.Ok? ==> id in o.value.tasks && Sound(o.value, id, start)
  {
    if RejectTask(s, id, allowed, stage, auditor).Ok? {
      var t := s.tasks[id];
      PlainStep(s, id, start, stage, Rejected, auditor, RejectedStatus(stage).value, t.designer, None, t.needOutsource);
    }
  }

  lemma ClaimStep(s: Store, id: int, allowed: bool, stage: Stage, auditor: int, start: Task)
    requires id in s.tasks && Sound(s, id, start)
    ensures var o := ClaimTask(s, id, allowed, stage, auditor);
            o.Ok? ==> id in o.value.tasks && Sound(o.value, id, start)
  {
    if ClaimTask(s, id, allowed, stage, auditor).Ok? {
      var t := s.tasks[id];
      PlainStep(s, id, start, stage, Claimed, auditor, t.status, Some(auditor), None, t.needOutsource);
    }
  }

  lemma TransferStep(s: Store, id: int, allowed: bool, stage: Stage, from: int, to: int, start: Task)
    requires id in s.tasks && Sound(s, id, start)
    ensures var o := TransferTask(s, id, allowed, stage, from, to);
            o.Ok? ==> id in o.value.tasks && Sound(o.value, id, start)
  {
    if TransferTask(s, id, allowed, stage, from, to).Ok? {
      var t := s.tasks[id];
      PlainStep(s, id, start, stage, Transferred, from, t.status, Some(to), Some(to), t.needOutsource);
    }
  }

  lemma PairStep(s: Store, r: Request, start: Task)
    requires r.task in s.tasks && Sound(s, r.task, start)
    requires r.action.HandOver? || r.action.TakeOver?
    ensures var o := Apply(s, r); o.Ok? ==> r.task in o.value.tasks && Sound(o.value, r.task, start)
  {
    if Apply(s, r).Ok? {
      if r.action.HandOver? {
        HandOverStep(s, r.task, r.action.from, r.action.to, start);
      } else {
        assert PendingAt(s, r.task, r.action.handover);
        TakeOverStep(s, r.task, r.action.handover, start);
      }
    }
  }

  lemma OwnTaskStep(s: Store, r: Request, start: Task)
    requires r.task in s.tasks && Sound(s, r.task, start)
    ensures r.task in After(s, r).tasks && Sound(After(s, r), r.task, start)
  {
    var allowed := r.inLane && r.authorized;
    if r.action.Claim? {
      ClaimStep(s, r.task, allowed, r.action.stage, r.action.auditor, start);
    } else if r.action.Approve? {
      ApproveStep(s, r.task, allowed, r.action.stage, r.action.auditor, r.action.next, start);
    } else if r.action.Reject? {
      RejectStep(s, r.task, allowed, r.action.stage, r.action.auditor, start);
    } else if r.action.Transfer? {
      TransferStep(s, r.task, allowed, r.action.stage, r.action.from, r.action.to, start);
    } else {
      PairStep(s, r, start);
    }
  }

  // ---------------------------------------------------------------- whole runs

  /** Every task is sound since it stood at its start. */
  ghost predicate AllSound(s: Store, starts: map<int, Task>) {
    && starts.Keys == s.tasks.Keys
    && forall id {:trigger Sound(s, id, starts[id])} :: id in s.tasks ==> Sound(s, id, starts[id])
  }

  /** A call, refused or not, keeps all tasks sound. */
  lemma AllStep(s: Store, r: Request, starts: map<int, Task>)
    requires AllSound(s, starts)
    ensures AllSound(After(s, r), starts)
  {
    var s' := After(s, r);
    assert s'.tasks.Keys == s.tasks.Keys;
    forall id | id in s'.tasks ensures Sound(s', id, starts[id]) {
      if id == r.task {
        OwnTaskStep(s, r, starts[id]);
      } else {
        OtherTaskStep(s, r, id, starts[id]);
      }
    }
  }

  /** Every run of the six actions keeps every task sound. */
  lemma {:induction false} RunSound(s: Store, run: seq<Request>, id: int, start: Task)
    requires id in s.tasks && Sound(s, id, start)
    ensures id in AfterAll(s, run).tasks && Sound(AfterAll(s, run), id, start)
    decreases |run|
  {
    if run != [] {
      if id != run[0].task {
        OtherTaskStep(s, run[0], id, start);
      } else {
        OwnTaskStep(s, run[0], start);
      }
      RunSound(After(s, run[0]), run[1..], id, start);
    }
  }

  /** A task is sound to start from when it has no pending handover, whatever its logs say of earlier audits. */
  lemma StartSound(s: Store, id: int)
    requires id in s.tasks && !HasPending(s, id)
    ensures Sound(s, id, s.tasks[id])
  {
    assert forall i :: !PendingAt(s, id, i);
  }

  /**
   * Over every run from a task with no pending handover: at most one is pending; then the handler
   * is nil and the task stands in the audit stage of the handover record. Its records and events
   * are only added to, and the added ones stay in lockstep and paired, replay from the status and
   * handler at the start to those now stored, and hold at most two decisions.
   */
  lemma AuditRuns(s: Store, run: seq<Request>, id: int)
    requires id in s.tasks && !HasPending(s, id)
    ensures id in AfterAll(s, run).tasks
    ensures Sound(AfterAll(s, run), id, s.tasks[id])
    ensures Decisions(Since(AfterAll(s, run).tasks[id], s.tasks[id]).records) <= 2
  {
    StartSound(s, id);
    RunSound(s, run, id, s.tasks[id]);
  }

  /** The takeover of row i by the auditor it names, which lane policy and authorizer let through. */
  predicate NamedTakeOver(s: Store, r: Request, id: int, i: int)
    requires 0 <= i < |s.handovers|
  {
    r.task == id && r.action == TakeOver(i, s.handovers[i].to) && r.inLane && r.authorized
  }

  /** While a handover is pending, no call touches its task but the takeover by the auditor it names. */
  lemma PendingFreezes(s: Store, r: Request, id: int, i: int, start: Task)
    requires id in s.tasks && Sound(s, id, start) && PendingAt(s, id, i)
    requires !NamedTakeOver(s, r, id, i)
    ensures id in After(s, r).tasks && After(s, r).tasks[id] == s.tasks[id]
    ensures i < |After(s, r).handovers| && After(s, r).handovers[i] == s.handovers[i]
  {
    assert r.action.TakeOver? && PendingAt(s, id, r.action.handover) ==> r.action.handover == i;
  }

  /** The same over whole runs: the task is exactly as the handover left it until that takeover. */
  lemma {:induction false} PendingFreezesRun(s: Store, run: seq<Request>, id: int, i: int, start: Task)
    requires id in s.tasks && Sound(s, id, start) && PendingAt(s, id, i)
    requires forall k :: 0 <= k < |run| ==> !NamedTakeOver(s, run[k], id, i)
    ensures id in AfterAll(s, run).tasks && AfterAll(s, run).tasks[id] == s.tasks[id]
    ensures PendingAt(AfterAll(s, run), id, i) && AfterAll(s, run).handovers[i] == s.handovers[i]
    decreases |run|
  {
    if run != [] {
      PendingFreezes(s, run[0], id, i, start);
      RunSound(s, [run[0]], id, start);
      assert [run[0]][1..] == [] && AfterAll(s, [run[0]]) == After(s, run[0]);
      PendingFreezesRun(After(s, run[0]), run[1..], id, i, start);
    }
  }

  /**
   * Handover and takeover undo each other but for the handler: whatever other calls come between,
   * the takeover by the named auditor succeeds, the status is as before, that auditor handles the
   * task, nothing is pending, and both records carry the stage the task stands in.
   */
  lemma {:induction false} TakeoverCompletesHandover(
      s: Store, id: int, from: int, to: int, idle: seq<Request>, start: Task)
    requires id in s.tasks && Sound(s, id, start)
    requires Apply(s, Request(id, HandOver(from, to), true, true)).Ok?
    requires forall k :: 0 <= k < |idle| ==>
               !(idle[k].task == id && idle[k].action == TakeOver(|s.handovers|, to)
                 && idle[k].inLane && idle[k].authorized)
    ensures var parked := AfterAll(After(s, Request(id, HandOver(from, to), true, true)), idle);
            var end := Apply(parked, Request(id, TakeOver(|s.handovers|, to), true, true));
            var stage := ActiveStage(s.tasks[id].status).value;
            && end.Ok?
            && id in end.value.tasks
            && end.value.tasks[id].status == s.tasks[id].status
            && end.value.tasks[id].handler == Some(to)
            && end.value.tasks[id].records ==
                 s.tasks[id].records + [Record(stage, HandedOver, from), Record(stage, TakenOver, to)]
            && !HasPending(end.value, id)
  {
    var i := |s.handovers|;
    var s1 := After(s, Request(id, HandOver(from, to), true, true));
    assert s1 == HandedOverStore(s, id, from, to);
    HandOverStep(s, id, from, to, start);
    PendingFreezesRun(s1, idle, id, i, start);
    RunSound(s1, idle, id, start);
    var parked := AfterAll(s1, idle);
    TakeOverStep(parked, id, i, start);
    assert Apply(parked, Request(id, TakeOver(i, to), true, true)) == Ok(TakenOverStore(parked, id, i));
  }
}
