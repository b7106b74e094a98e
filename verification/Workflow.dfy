/** The SKU workflow policy of policy/engine.go: the transition table and what it implies for whole runs. */
module Workflow {

  datatype Status =
    | Draft
    | Submitted
    | AuditAPending
    | AuditAApproved
    | AuditARejected
    | AuditBPending
    | AuditBApproved
    | AuditBRejected
    | ApprovedPendingVerify
    | Approved
    | DistributionRunning
    | Completed
    | Blocked
    | Cancelled

  /** The allowedTransitions table; Completed and Cancelled have no row. */
  predicate CanTransition(from: Status, to: Status) {
    match from
    case Draft => to == Submitted || to == Cancelled
    case Submitted => to == AuditAPending || to == Cancelled
    case AuditAPending => to == AuditAApproved || to == AuditARejected || to == Blocked || to == Cancelled
    case AuditAApproved => to == AuditBPending || to == ApprovedPendingVerify || to == Cancelled
    case AuditARejected => to == Draft || to == Cancelled
    case AuditBPending => to == AuditBApproved || to == AuditBRejected || to == Blocked || to == Cancelled
    case AuditBApproved => to == ApprovedPendingVerify || to == Cancelled
    case AuditBRejected => to == Draft || to == Cancelled
    case ApprovedPendingVerify => to == Approved || to == Blocked || to == Cancelled
    case Approved => to == DistributionRunning || to == Cancelled
    case DistributionRunning => to == Completed || to == Blocked || to == Cancelled
    case Blocked => to == AuditAPending || to == Cancelled
    case Completed => false
    case Cancelled => false
  }

  /** The statuses each status is entered from: the table read the other way round. */
  function EnteredFrom(to: Status): set<Status> {
    match to
    case Draft => {AuditARejected, AuditBRejected}
    case Submitted => {Draft}
    case AuditAPending => {Submitted, Blocked}
    case AuditAApproved => {AuditAPending}
    case AuditARejected => {AuditAPending}
    case AuditBPending => {AuditAApproved}
    case AuditBApproved => {AuditBPending}
    case AuditBRejected => {AuditBPending}
    case ApprovedPendingVerify => {AuditAApproved, AuditBApproved}
    case Approved => {ApprovedPendingVerify}
    case DistributionRunning => {Approved}
    case Completed => {DistributionRunning}
    case Blocked => {AuditAPending, AuditBPending, ApprovedPendingVerify, DistributionRunning}
    case Cancelled =>
      {Draft, Submitted, AuditAPending, AuditAApproved, AuditARejected, AuditBPending, AuditBApproved, AuditBRejected,
       ApprovedPendingVerify, Approved, DistributionRunning, Blocked}
  }

  /** A transition is allowed exactly when its target is entered from its source. */
  lemma AllowedIffEntered(from: Status, to: Status)
    ensures CanTransition(from, to) <==> from in EnteredFrom(to)
  {
  }

  /** One sku.status_changed payload. */
  datatype Edge = Edge(from: Status, to: Status)

  /** The edges lead, one allowed transition after another, from the first status to the last. */
  ghost predicate Walk(trail: seq<Edge>, from: Status, to: Status) {
    if trail == [] then
      from == to
    else
      trail[0].from == from && CanTransition(from, trail[0].to) && Walk(trail[1..], trail[0].to, to)
  }

  lemma {:induction false} WalkAppend(a: seq<Edge>, b: seq<Edge>, x: Status, y: Status, z: Status)
    requires Walk(a, x, y) && Walk(b, y, z)
    ensures Walk(a + b, x, z)
  {
    if a == [] {
      assert a + b == b;
    } else {
      assert (a + b)[1..] == a[1..] + b;
      WalkAppend(a[1..], b, a[0].to, y, z);
    }
  }

  /** A walk can be cut before its last edge. */
  lemma {:induction false} WalkLast(t: seq<Edge>, x: Status, z: Status)
    requires t != [] && Walk(t, x, z)
    ensures t[|t| - 1].to == z
    ensures CanTransition(t[|t| - 1].from, z)
    ensures Walk(t[..|t| - 1], x, t[|t| - 1].from)
  {
    if |t| > 1 {
      WalkLast(t[1..], t[0].to, z);
      assert t[1..][..|t| - 2] == t[..|t| - 1][1..];
    }
  }

  /** Completed and Cancelled are never left. */
  lemma TerminalIsFinal(t: seq<Edge>, x: Status, z: Status)
    requires x == Completed || x == Cancelled
    requires Walk(t, x, z)
    ensures z == x && t == []
  {
  }

  /** The statuses a walk visits after its start. */
  function Visits(t: seq<Edge>): (v: seq<Status>)
    ensures |v| == |t|
    ensures forall i :: 0 <= i < |t| ==> v[i] == t[i].to
  {
    seq(|t|, i requires 0 <= i < |t| => t[i].to)
  }

  /** What a completed run visits after it last stood at Draft or Blocked, up to the audit A approval. */
  function FirstAudit(afterBlock: bool): seq<Status> {
    (if afterBlock then [] else [Submitted]) + [AuditAPending, AuditAApproved]
  }

  /** The optional second audit stage, up to the pre-distribution check. */
  function SecondAudit(twoStage: bool): seq<Status> {
    (if twoStage then [AuditBPending, AuditBApproved] else []) + [ApprovedPendingVerify]
  }

  function CompletionTail(afterBlock: bool, twoStage: bool): seq<Status> {
    FirstAudit(afterBlock) + SecondAudit(twoStage) + [Approved, DistributionRunning, Completed]
  }

  /** Cutting the last edge cuts the last visit. */
  lemma VisitsLast(t: seq<Edge>, z: Status) returns (pre: seq<Edge>, from: Status)
    requires t != [] && Walk(t, Draft, z)
    ensures pre == t[..|t| - 1] && from == t[|t| - 1].from
    ensures Walk(pre, Draft, from) && CanTransition(from, z)
    ensures Visits(t) == Visits(pre) + [z]
  {
    WalkLast(t, Draft, z);
    pre, from := t[..|t| - 1], t[|t| - 1].from;
  }

  lemma DropAppend(v: seq<Status>, a: seq<Status>, b: seq<Status>, k: nat)
    requires v == a + b && k <= |a|
    ensures v[k..] == a[k..] + b
  {
  }

  /** A walk that stands at AuditA_Approved came straight from Draft or from Blocked. */
  lemma AuditAShape(t: seq<Edge>) returns (k: nat, afterBlock: bool)
    requires Walk(t, Draft, AuditAApproved)
    ensures k < |t|
    ensures t[k].from == if afterBlock then Blocked else Draft
    ensures Visits(t)[k..] == FirstAudit(afterBlock)
  {
    var t1, s1 := VisitsLast(t, AuditAApproved);
    var t2, s2 := VisitsLast(t1, AuditAPending);
    afterBlock := s2 == Blocked;
    k := |t2|;
    if !afterBlock {
      var t3, s3 := VisitsLast(t2, Submitted);
      k := |t3|;
    }
  }

  /** A walk that stands at AuditB_Approved passed audit A just before audit B. */
  lemma AuditBShape(t: seq<Edge>) returns (k: nat, afterBlock: bool)
    requires Walk(t, Draft, AuditBApproved)
    ensures k < |t|
    ensures t[k].from == if afterBlock then Blocked else Draft
    ensures Visits(t)[k..] == FirstAudit(afterBlock) + [AuditBPending, AuditBApproved]
  {
    var t1, s1 := VisitsLast(t, AuditBApproved);
    var t2, s2 := VisitsLast(t1, AuditBPending);
    k, afterBlock := AuditAShape(t2);
    DropAppend(Visits(t), Visits(t2), [AuditBPending, AuditBApproved], k);
  }

  /** From AuditA_Approved a walk reaches Approved_PendingVerify directly or through audit B. */
  lemma PendingVerifyShape(t: seq<Edge>) returns (k: nat, afterBlock: bool, twoStage: bool)
    requires Walk(t, Draft, ApprovedPendingVerify)
    ensures k < |t|
    ensures t[k].from == if afterBlock then Blocked else Draft
    ensures Visits(t)[k..] == FirstAudit(afterBlock) + SecondAudit(twoStage)
  {
    var t1, s1 := VisitsLast(t, ApprovedPendingVerify);
    twoStage := s1 == AuditBApproved;
    if twoStage {
      k, afterBlock := AuditBShape(t1);
    } else {
      k, afterBlock := AuditAShape(t1);
    }
    DropAppend(Visits(t), Visits(t1), [ApprovedPendingVerify], k);
  }

  lemma CompletionParts(t: seq<Edge>) returns (k: nat, afterBlock: bool, twoStage: bool)
    requires Walk(t, Draft, Completed)
    ensures EndsWith(t, k, afterBlock, twoStage)
  {
    var t1, s1 := VisitsLast(t, Completed);
    var t2, s2 := VisitsLast(t1, DistributionRunning);
    var t3, s3 := VisitsLast(t2, Approved);
    k, afterBlock, twoStage := PendingVerifyShape(t3);
    DropAppend(Visits(t), Visits(t3), [Approved, DistributionRunning, Completed], k);
  }

  /** After its k-th edge left Draft or Blocked, the walk makes one of the four completing visits. */
  ghost predicate EndsWith(t: seq<Edge>, k: nat, afterBlock: bool, twoStage: bool) {
    && k < |t|
    && t[k].from == (if afterBlock then Blocked else Draft)
    && Visits(t)[k..] == CompletionTail(afterBlock, twoStage)
  }

  /**
   * Every walk from Draft to Completed ends in one of four ways: it stands at Draft or Blocked
   * for the last time and then runs straight through audit A, optionally audit B, verification,
   * approval and distribution.
   */
  lemma CompletedRunShape(t: seq<Edge>)
    requires Walk(t, Draft, Completed)
    ensures exists k, afterBlock, twoStage :: EndsWith(t, k, afterBlock, twoStage)
  {
    var k, afterBlock, twoStage := CompletionParts(t);
  }

  /** The status a path stands at before its i-th visit. */
  function Stand(from: Status, visits: seq<Status>, i: nat): Status
    requires i <= |visits|
  {
    if i == 0 then from else visits[i - 1]
  }

  /** The edges of a path that makes the given visits. */
  function Path(from: Status, visits: seq<Status>): seq<Edge> {
    seq(|visits|, i requires 0 <= i < |visits| => Edge(Stand(from, visits, i), visits[i]))
  }

  /** The i-th visit of a path is an allowed transition. */
  predicate Step(from: Status, visits: seq<Status>, i: nat)
    requires i < |visits|
  {
    CanTransition(Stand(from, visits, i), visits[i])
  }

  ghost predicate Allowed(from: Status, visits: seq<Status>) {
    forall i :: 0 <= i < |visits| ==> Step(from, visits, i)
  }

  /** After its first visit, what is left of an allowed path is one from there. */
  lemma AllowedRest(from: Status, visits: seq<Status>)
    requires visits != [] && Allowed(from, visits)
    ensures CanTransition(from, visits[0]) && Allowed(visits[0], visits[1..])
    ensures Stand(visits[0], visits[1..], |visits| - 1) == Stand(from, visits, |visits|)
  {
    assert Step(from, visits, 0);
    forall i | 0 <= i < |visits| - 1 ensures Step(visits[0], visits[1..], i) {
      assert Step(from, visits, i + 1);
    }
  }

  lemma {:induction false} PathWalks(from: Status, visits: seq<Status>)
    requires Allowed(from, visits)
    ensures Walk(Path(from, visits), from, Stand(from, visits, |visits|))
    decreases |visits|
  {
    if visits != [] {
      AllowedRest(from, visits);
      PathWalks(visits[0], visits[1..]);
      assert Path(from, visits)[1..] == Path(visits[0], visits[1..]);
    }
  }

  /** The way from Draft to where a completing tail sets out. */
  function Lead(afterBlock: bool): seq<Status> {
    if afterBlock then [Submitted, AuditAPending, Blocked] else []
  }

  lemma TailAllowed(afterBlock: bool, twoStage: bool)
    ensures Allowed(Draft, Lead(afterBlock) + CompletionTail(afterBlock, twoStage))
  {
  }

  lemma PathEnds(afterBlock: bool, twoStage: bool)
    ensures var visits := Lead(afterBlock) + CompletionTail(afterBlock, twoStage);
            EndsWith(Path(Draft, visits), |Lead(afterBlock)|, afterBlock, twoStage)
  {
    var visits := Lead(afterBlock) + CompletionTail(afterBlock, twoStage);
    assert Visits(Path(Draft, visits)) == visits;
  }

  /** And each of the four ways is taken by some walk. */
  lemma EveryTailIsTaken(afterBlock: bool, twoStage: bool)
    ensures exists t, k :: Walk(t, Draft, Completed) && EndsWith(t, k, afterBlock, twoStage)
  {
    var visits := Lead(afterBlock) + CompletionTail(afterBlock, twoStage);
    TailAllowed(afterBlock, twoStage);
    PathWalks(Draft, visits);
    PathEnds(afterBlock, twoStage);
    assert visits[|visits| - 1] == Completed;
  }
}
