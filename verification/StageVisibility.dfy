/**
 * Which task statuses a user may see, by workflow lane (service/data_scope.go): a builder that
 * collects grants into one bucket per lane, and the grants each role brings.
 */
module StageVisibility {
  import opened Prelude

  type Lane = Option<string>   // none: the grant holds in every lane

  datatype Grant = Grant(lane: Lane, statuses: seq<string>)
  datatype Visibility = Visibility(lane: Lane, statuses: seq<string>)
  datatype Bucket = Bucket(lane: Lane, statuses: seq<string>, seen: set<string>)

  /** The bucket a lane's grants are kept in: "*" stands for no lane, and for a lane of that name. */
  function Key(lane: Lane): string {
    if lane.None? then "*" else lane.value
  }

  // ---------------------------------------------------------------- what a series of grants means

  /** Statuses added to a list, blank and repeated ones left out. */
  function Added(to: seq<string>, statuses: seq<string>): seq<string>
    decreases |statuses|
  {
    if statuses == [] then to
    else
      var done, s := Added(to, statuses[..|statuses| - 1]), Last(statuses);
      if s == "" || s in done then done else done + [s]
  }

  function Keys(grants: seq<Grant>): seq<string>
    decreases |grants|
  {
    if grants == [] then []
    else
      var keys, key := Keys(grants[..|grants| - 1]), Key(Last(grants).lane);
      if key in keys then keys else keys + [key]
  }

  function StatusesOf(grants: seq<Grant>, key: string): seq<string>
    decreases |grants|
  {
    if grants == [] then []
    else
      var before := StatusesOf(grants[..|grants| - 1], key);
      if Key(Last(grants).lane) == key then Added(before, Last(grants).statuses) else before
  }

  /** The lane of the first grant under a key. */
  function LaneOf(grants: seq<Grant>, key: string): Lane
    requires key in Keys(grants)
    decreases |grants|
  {
    var init := grants[..|grants| - 1];
    if key in Keys(init) then LaneOf(init, key) else Last(grants).lane
  }

  function BucketOf(grants: seq<Grant>, key: string): Bucket
    requires key in Keys(grants)
  {
    var statuses := StatusesOf(grants, key);
    Bucket(LaneOf(grants, key), statuses, set s | s in statuses)
  }

  /** The visibilities of the given keys, empty ones left out. */
  function Listed(grants: seq<Grant>, keys: seq<string>): seq<Visibility>
    requires forall k :: k in keys ==> k in Keys(grants)
    decreases |keys|
  {
    if keys == [] then []
    else
      var init, key := Listed(grants, keys[..|keys| - 1]), Last(keys);
      var statuses := StatusesOf(grants, key);
      if statuses == [] then init else init + [Visibility(LaneOf(grants, key), statuses)]
  }

  function Built(grants: seq<Grant>): seq<Visibility> {
    Listed(grants, Keys(grants))
  }

  // ---------------------------------------------------------------- the builder

  /** The statuses not blank and not seen before go to the end of the bucket. */
  method AddStatuses(to: Bucket, statuses: seq<string>) returns (bucket: Bucket)
    requires to.seen == set s | s in to.statuses
    ensures bucket.lane == to.lane && bucket.statuses == Added(to.statuses, statuses)
    ensures bucket.seen == set s | s in bucket.statuses
  {
    bucket := to;
    for k := 0 to |statuses|
      invariant bucket.lane == to.lane && bucket.statuses == Added(to.statuses, statuses[..k])
      invariant bucket.seen == set s | s in bucket.statuses
    {
      assert statuses[..k + 1][..k] == statuses[..k];
      var status := statuses[k];
      if status == "" || status in bucket.seen {
        continue;
      }
      bucket := bucket.(seen := bucket.seen + {status}, statuses := bucket.statuses + [status]);
    }
    assert statuses[..|statuses|] == statuses;
  }

  class Builder {
    var order: seq<string>
    var buckets: map<string, Bucket>
    ghost var grants: seq<Grant>

    ghost predicate Valid()
      reads this
    {
      && order == Keys(grants)
      && (forall key :: key in buckets <==> key in order)
      && (forall key :: key in buckets ==> buckets[key] == BucketOf(grants, key))
    }

    constructor ()
      ensures Valid() && grants == []
    {
      order, buckets, grants := [], map[], [];
    }

    method GrantTo(lane: Lane, statuses: seq<string>)
      requires Valid()
      modifies this
      ensures Valid() && grants == old(grants) + [Grant(lane, statuses)]
    {
      var key := Key(lane);
      ghost var before, after := grants, grants + [Grant(lane, statuses)];
      assert after[..|after| - 1] == before;
      if key !in buckets {
        buckets := buckets[key := Bucket(lane, [], {})];
        order := order + [key];
        NoStatuses(before, key);
      }
      var bucket := buckets[key];
      bucket := AddStatuses(bucket, statuses);
      buckets := buckets[key := bucket];
      grants := after;
    }

    method GrantAll(more: seq<Grant>)
      requires Valid()
      modifies this
      ensures Valid() && grants == old(grants) + more
    {
      for k := 0 to |more|
        invariant Valid() && grants == old(grants) + more[..k]
      {
        GrantTo(more[k].lane, more[k].statuses);
      }
      assert more[..|more|] == more;
    }

    method Build() returns (out: seq<Visibility>)
      requires Valid()
      ensures out == Built(grants)
    {
      out := [];
      for k := 0 to |order|
        invariant out == Listed(grants, order[..k])
      {
        assert order[..k + 1][..k] == order[..k];
        var bucket := buckets[order[k]];
        if |bucket.statuses| == 0 {
          continue;
        }
        out := out + [Visibility(bucket.lane, bucket.statuses)];
      }
      assert order[..|order|] == order;
    }
  }

  lemma {:induction false} NoStatuses(grants: seq<Grant>, key: string)
    requires key !in Keys(grants)
    ensures StatusesOf(grants, key) == []
    decreases |grants|
  {
    if grants != [] {
      NoStatuses(grants[..|grants| - 1], key);
    }
  }

  // ---------------------------------------------------------------- what roles grant

  datatype Role =
    | AuditA | AuditB | Warehouse | Outsource
    | CustomizationOperator | CustomizationReviewer | DeptAdmin | OtherRole(name: string)

  /** The department a department admin administers, after its code was normalised. */
  datatype Department = Audit | CloudWarehouse | CustomizationArt | OtherDepartment(name: string)

  const NORMAL: Lane := Some("normal")
  const CUSTOMIZATION: Lane := Some("customization")

  const WAREHOUSE_STATUSES := [
    "PendingWarehouseQC", "PendingWarehouseReceive", "RejectedByWarehouse",
    "PendingProductionTransfer", "PendingClose"]
  const OUTSOURCE_STATUSES := ["PendingOutsource", "Outsourcing", "PendingOutsourceReview"]
  const OPERATOR_STATUSES := ["InProgress", "PendingCustomizationProduction", "RejectedByAuditA", "RejectedByAuditB"]
  const REVIEWER_STATUSES := ["PendingCustomizationReview", "PendingEffectReview", "PendingEffectRevision"]

  /** What one role grants. */
  function RoleGrants(role: Role, department: Department): seq<Grant> {
    match role
    case AuditA => [Grant(NORMAL, ["PendingAuditA", "RejectedByAuditA"])]
    case AuditB => [Grant(NORMAL, ["PendingAuditB", "RejectedByAuditB"])]
    case Warehouse => [Grant(None, WAREHOUSE_STATUSES)]
    case Outsource => [Grant(None, OUTSOURCE_STATUSES)]
    case CustomizationOperator => [Grant(CUSTOMIZATION, OPERATOR_STATUSES)]
    case CustomizationReviewer => [Grant(CUSTOMIZATION, REVIEWER_STATUSES)]
    case DeptAdmin =>
      (match department
       case Audit =>
         [Grant(NORMAL, ["PendingAuditA", "RejectedByAuditA", "PendingAuditB", "RejectedByAuditB"]),
          Grant(CUSTOMIZATION, REVIEWER_STATUSES)]
       case CloudWarehouse => [Grant(None, WAREHOUSE_STATUSES)]
       case CustomizationArt => [Grant(CUSTOMIZATION, OPERATOR_STATUSES + REVIEWER_STATUSES)]
       case OtherDepartment(_) => [])
    case OtherRole(_) => []
  }

  const CHECKED_ROLES := [AuditA, AuditB, Warehouse, Outsource, CustomizationOperator, CustomizationReviewer, DeptAdmin]

  /** The grants of the roles held, in the order the roles are checked for. */
  function GrantsFor(held: seq<Role>, checked: seq<Role>, department: Department): seq<Grant>
    decreases |checked|
  {
    if checked == [] then []
    else
      var init := GrantsFor(held, checked[..|checked| - 1], department);
      if Last(checked) in held then init + RoleGrants(Last(checked), department) else init
  }

  method HasRole(roles: seq<Role>, target: Role) returns (found: bool)
    ensures found <==> target in roles
  {
    for k := 0 to |roles|
      invariant target !in roles[..k]
    {
      if roles[k] == target {
        return true;
      }
    }
    return false;
  }

  /** The visibilities of a user: every role is checked for in turn and adds its grants to the builder. */
  method VisibilitiesFor(held: seq<Role>, department: Department) returns (out: seq<Visibility>)
    ensures out == Built(GrantsFor(held, CHECKED_ROLES, department))
  {
    var builder := new Builder();
    for k := 0 to |CHECKED_ROLES|
      invariant builder.Valid() && builder.grants == GrantsFor(held, CHECKED_ROLES[..k], department)
    {
      assert CHECKED_ROLES[..k + 1][..k] == CHECKED_ROLES[..k];
      var has := HasRole(held, CHECKED_ROLES[k]);
      if has {
        builder.GrantAll(RoleGrants(CHECKED_ROLES[k], department));
      }
    }
    assert CHECKED_ROLES[..|CHECKED_ROLES|] == CHECKED_ROLES;
    out := builder.Build();
  }
}
