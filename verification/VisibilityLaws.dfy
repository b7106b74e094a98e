/** The builder shows exactly what was granted, and more roles never show less. */
module VisibilityLaws {
  import opened Prelude
  import opened StageVisibility

  ghost predicate Visible(out: seq<Visibility>, lane: Lane, s: string) {
    exists i :: 0 <= i < |out| && out[i].lane == lane && s in out[i].statuses
  }

  ghost predicate Grants(g: Grant, key: string, s: string) {
    Key(g.lane) == key && s != "" && s in g.statuses
  }

  ghost predicate GrantedUnder(grants: seq<Grant>, key: string, s: string) {
    exists i :: 0 <= i < |grants| && Grants(grants[i], key, s)
  }

  ghost predicate Granted(grants: seq<Grant>, lane: Lane, s: string) {
    exists i :: 0 <= i < |grants| && grants[i].lane == lane && Grants(grants[i], Key(lane), s)
  }

  // ---------------------------------------------------------------- one bucket

  lemma {:induction false} AddedMember(to: seq<string>, statuses: seq<string>, s: string)
    ensures s in Added(to, statuses) <==> s in to || (s != "" && s in statuses)
    decreases |statuses|
  {
    if statuses != [] {
      AddedMember(to, statuses[..|statuses| - 1], s);
      assert statuses == statuses[..|statuses| - 1] + [Last(statuses)];
    }
  }

  lemma {:induction false} AddedDistinct(to: seq<string>, statuses: seq<string>)
    requires Distinct(to)
    ensures Distinct(Added(to, statuses))
    decreases |statuses|
  {
    if statuses != [] {
      AddedDistinct(to, statuses[..|statuses| - 1]);
    }
  }

  /** Statuses are taken one after the other: a blank or known one is passed over, any other goes to the end. */
  lemma {:induction false} AddedInTurn(to: seq<string>, a: seq<string>, b: seq<string>)
    ensures Added(to, a + b) == Added(Added(to, a), b)
    ensures |b| == 1 ==> Added(to, b) == if b[0] == "" || b[0] in to then to else to + [b[0]]
    decreases |b|
  {
    if b == [] {
      assert a + b == a;
    } else {
      assert (a + b)[..|a + b| - 1] == a + b[..|b| - 1];
      AddedInTurn(to, a, b[..|b| - 1]);
    }
  }

  /** The statuses granted under a key, one grant after the other. */
  function Offered(grants: seq<Grant>, key: string): seq<string> {
    if grants == [] then []
    else (if Key(grants[0].lane) == key then grants[0].statuses else []) + Offered(grants[1..], key)
  }

  lemma {:induction false} OfferedLast(grants: seq<Grant>, key: string, g: Grant)
    ensures Offered(grants + [g], key) ==
            if Key(g.lane) == key then Offered(grants, key) + g.statuses else Offered(grants, key)
  {
    if grants == [] {
      assert grants + [g] == [g] && [g][1..] == [];
    } else {
      OfferedLast(grants[1..], key, g);
      assert (grants + [g])[1..] == grants[1..] + [g];
    }
  }

  /** A bucket holds what was offered under its key, in the order of offering, blanks and repeats passed over. */
  lemma {:induction false} StatusesInOrder(grants: seq<Grant>, key: string)
    ensures StatusesOf(grants, key) == Added([], Offered(grants, key))
    decreases |grants|
  {
    if grants != [] {
      var init, g := grants[..|grants| - 1], Last(grants);
      StatusesInOrder(init, key);
      assert grants == init + [g];
      OfferedLast(init, key, g);
      AddedInTurn([], Offered(init, key), g.statuses);
    }
  }

  lemma {:induction false} StatusesMember(grants: seq<Grant>, key: string, s: string)
    ensures s in StatusesOf(grants, key) <==> GrantedUnder(grants, key, s)
    decreases |grants|
  {
    if grants != [] {
      var n := |grants| - 1;
      var init := grants[..n];
      StatusesMember(init, key, s);
      AddedMember(StatusesOf(init, key), grants[n].statuses, s);
      if GrantedUnder(init, key, s) {
        var i :| 0 <= i < n && Grants(init[i], key, s);
        assert Grants(grants[i], key, s);
      }
      assert Grants(grants[n], key, s) ==> GrantedUnder(grants, key, s);
      if GrantedUnder(grants, key, s) && !Grants(grants[n], key, s) {
        var i :| 0 <= i < |grants| && Grants(grants[i], key, s);
        assert Grants(init[i], key, s);
      }
    }
  }

  lemma {:induction false} StatusesDistinct(grants: seq<Grant>, key: string)
    ensures Distinct(StatusesOf(grants, key))
    decreases |grants|
  {
    if grants != [] {
      StatusesDistinct(grants[..|grants| - 1], key);
      AddedDistinct(StatusesOf(grants[..|grants| - 1], key), Last(grants).statuses);
    }
  }

  // ---------------------------------------------------------------- keys and lanes

  /** The position of the first grant under a key. */
  ghost function First(grants: seq<Grant>, key: string): (i: nat)
    requires key in Keys(grants)
    ensures i < |grants| && Key(grants[i].lane) == key
    ensures forall k :: 0 <= k < i ==> Key(grants[k].lane) != key
    ensures LaneOf(grants, key) == grants[i].lane
    decreases |grants|
  {
    var init := grants[..|grants| - 1];
    if key in Keys(init) then First(init, key)
    else
      NotInKeys(init, key);
      assert forall k :: 0 <= k < |init| ==> init[k] == grants[k];
      |grants| - 1
  }

  lemma {:induction false} NotInKeys(grants: seq<Grant>, key: string)
    requires key !in Keys(grants)
    ensures forall k :: 0 <= k < |grants| ==> Key(grants[k].lane) != key
    decreases |grants|
  {
    if grants != [] {
      var init := grants[..|grants| - 1];
      NotInKeys(init, key);
      assert forall k :: 0 <= k < |init| ==> init[k] == grants[k];
    }
  }

  /** Keys come in the order of their first grants. */
  lemma {:induction false} KeysInOrder(grants: seq<Grant>, i: nat, j: nat)
    requires i < j < |Keys(grants)|
    ensures First(grants, Keys(grants)[i]) < First(grants, Keys(grants)[j])
    decreases |grants|
  {
    var keys, init := Keys(grants), grants[..|grants| - 1];
    assert keys[i] in Keys(init);
    if keys[j] in Keys(init) {
      assert keys[j] == Keys(init)[j] by { KeysDistinct(grants); }
      KeysInOrder(init, i, j);
    }
  }

  lemma {:induction false} KeysDistinct(grants: seq<Grant>)
    ensures Distinct(Keys(grants))
    decreases |grants|
  {
    if grants != [] {
      KeysDistinct(grants[..|grants| - 1]);
    }
  }

  // ---------------------------------------------------------------- what is built

  /** Bucket `key` is listed with its statuses, under the lane of its first grant. */
  lemma {:induction false} ListedMember(grants: seq<Grant>, keys: seq<string>, lane: Lane, s: string)
    requires forall k :: k in keys ==> k in Keys(grants)
    ensures Visible(Listed(grants, keys), lane, s) <==>
              Key(lane) in keys && LaneOf(grants, Key(lane)) == lane && GrantedUnder(grants, Key(lane), s)
    decreases |keys|
  {
    if keys != [] {
      var init, key := keys[..|keys| - 1], Last(keys);
      var out, out' := Listed(grants, init), Listed(grants, keys);
      ListedMember(grants, init, lane, s);
      StatusesMember(grants, key, s);
      assert keys == init + [key];
      assert Key(grants[First(grants, key)].lane) == key;
      if out' != out {
        VisibleAppend(out, Last(out'), lane, s);
      }
    }
  }

  lemma VisibleAppend(out: seq<Visibility>, v: Visibility, lane: Lane, s: string)
    ensures Visible(out + [v], lane, s) <==> Visible(out, lane, s) || (v.lane == lane && s in v.statuses)
  {
    var all := out + [v];
    if Visible(out, lane, s) {
      var i :| 0 <= i < |out| && out[i].lane == lane && s in out[i].statuses;
      assert all[i] == out[i];
    }
    assert all[|out|] == v;
  }

  lemma InKeys(grants: seq<Grant>, i: nat)
    requires i < |grants|
    ensures Key(grants[i].lane) in Keys(grants)
  {
    if Key(grants[i].lane) !in Keys(grants) {
      NotInKeys(grants, Key(grants[i].lane));
    }
  }

  /** Every grant that shows something names the lane its bucket was opened with. */
  ghost predicate LanesKept(grants: seq<Grant>) {
    forall i, s :: 0 <= i < |grants| && Grants(grants[i], Key(grants[i].lane), s) ==> KeepsLane(grants, i)
  }

  ghost predicate KeepsLane(grants: seq<Grant>, i: nat)
    requires i < |grants|
  {
    forall k :: 0 <= k < i && Key(grants[k].lane) == Key(grants[i].lane) ==>
      FirstOf(grants, k) ==> grants[k].lane == grants[i].lane
  }

  /** No earlier grant went to the same bucket. */
  ghost predicate FirstOf(grants: seq<Grant>, k: nat)
    requires k < |grants|
  {
    forall j :: 0 <= j < k ==> Key(grants[j].lane) != Key(grants[k].lane)
  }

  /** What is built shows exactly the granted pairs. */
  ghost predicate Exact(grants: seq<Grant>) {
    forall lane, s :: Visible(Built(grants), lane, s) <==> Granted(grants, lane, s)
  }

  lemma KeepsLaneMeans(grants: seq<Grant>, i: nat)
    requires i < |grants|
    ensures Key(grants[i].lane) in Keys(grants)
    ensures KeepsLane(grants, i) <==> LaneOf(grants, Key(grants[i].lane)) == grants[i].lane
  {
    InKeys(grants, i);
    var first := First(grants, Key(grants[i].lane));
    assert FirstOf(grants, first) && first <= i;
  }

  /** The builder is exact if and only if no bucket mixes lanes: "*" is both a lane's name and the key of no lane. */
  lemma ExactIffLanesKept(grants: seq<Grant>)
    ensures Exact(grants) <==> LanesKept(grants)
  {
    if LanesKept(grants) {
      forall lane, s ensures Visible(Built(grants), lane, s) <==> Granted(grants, lane, s) {
        PairExact(grants, lane, s);
      }
    }
    if Exact(grants) {
      forall i, s | 0 <= i < |grants| && Grants(grants[i], Key(grants[i].lane), s) ensures KeepsLane(grants, i) {
        var lane := grants[i].lane;
        assert Granted(grants, lane, s);
        ListedMember(grants, Keys(grants), lane, s);
        KeepsLaneMeans(grants, i);
      }
    }
  }

  lemma PairExact(grants: seq<Grant>, lane: Lane, s: string)
    requires LanesKept(grants)
    ensures Visible(Built(grants), lane, s) <==> Granted(grants, lane, s)
  {
    ListedMember(grants, Keys(grants), lane, s);
    if Granted(grants, lane, s) {
      var i :| 0 <= i < |grants| && grants[i].lane == lane && Grants(grants[i], Key(lane), s);
      assert KeepsLane(grants, i);
      KeepsLaneMeans(grants, i);
    }
    if Visible(Built(grants), lane, s) {
      var i :| 0 <= i < |grants| && Grants(grants[i], Key(lane), s);
      assert Grants(grants[i], Key(grants[i].lane), s) && KeepsLane(grants, i);
      KeepsLaneMeans(grants, i);
    }
  }

  /** A grant to no lane and one to the lane named "*" share a bucket, and the second loses its lane. */
  lemma StarLaneIsLost()
    ensures !Exact([Grant(None, ["a"]), Grant(Some("*"), ["b"])])
  {
    var grants := [Grant(None, ["a"]), Grant(Some("*"), ["b"])];
    assert Grants(grants[1], Key(grants[1].lane), "b");
    assert FirstOf(grants, 0) && !KeepsLane(grants, 1);
    ExactIffLanesKept(grants);
  }

  /** One non-empty bucket per key, in first-grant order, of distinct non-blank statuses. */
  ghost predicate Tidy(grants: seq<Grant>, out: seq<Visibility>) {
    && (forall i :: 0 <= i < |out| ==>
          && out[i].statuses != [] && Distinct(out[i].statuses) && "" !in out[i].statuses
          && Key(out[i].lane) in Keys(grants))
    && (forall i, j :: 0 <= i < j < |out| ==> First(grants, Key(out[i].lane)) < First(grants, Key(out[j].lane)))
  }

  lemma TidyAppend(grants: seq<Grant>, out: seq<Visibility>, v: Visibility)
    requires Tidy(grants, out)
    requires v.statuses != [] && Distinct(v.statuses) && "" !in v.statuses && Key(v.lane) in Keys(grants)
    requires forall i :: 0 <= i < |out| ==> First(grants, Key(out[i].lane)) < First(grants, Key(v.lane))
    ensures Tidy(grants, out + [v])
  {
  }

  ghost predicate Under(out: seq<Visibility>, keys: seq<string>) {
    forall i :: 0 <= i < |out| ==> Key(out[i].lane) in keys
  }

  lemma BucketTidy(grants: seq<Grant>, key: string)
    requires key in Keys(grants)
    ensures Distinct(StatusesOf(grants, key)) && "" !in StatusesOf(grants, key) && Key(LaneOf(grants, key)) == key
  {
    StatusesDistinct(grants, key);
    StatusesMember(grants, key, "");
    assert Key(grants[First(grants, key)].lane) == key;
  }

  lemma EarlierFirst(grants: seq<Grant>, n: nat, out: seq<Visibility>)
    requires n < |Keys(grants)| && Under(out, Keys(grants)[..n])
    ensures forall i :: 0 <= i < |out| ==> First(grants, Key(out[i].lane)) < First(grants, Keys(grants)[n])
  {
    forall i | 0 <= i < |out| ensures First(grants, Key(out[i].lane)) < First(grants, Keys(grants)[n]) {
      var m :| 0 <= m < n && Keys(grants)[m] == Key(out[i].lane);
      KeysInOrder(grants, m, n);
    }
  }

  lemma {:induction false} ListedTidy(grants: seq<Grant>, n: nat)
    requires n <= |Keys(grants)|
    ensures var out := Listed(grants, Keys(grants)[..n]); Tidy(grants, out) && Under(out, Keys(grants)[..n])
  {
    if n > 0 {
      var keys := Keys(grants);
      var init, key := keys[..n - 1], keys[n - 1];
      assert keys[..n][..n - 1] == init && Last(keys[..n]) == key;
      ListedTidy(grants, n - 1);
      var out := Listed(grants, init);
      BucketTidy(grants, key);
      EarlierFirst(grants, n - 1, out);
      if StatusesOf(grants, key) != [] {
        TidyAppend(grants, out, Visibility(LaneOf(grants, key), StatusesOf(grants, key)));
      }
      assert forall k :: k in init ==> k in keys[..n];
    }
  }

  /** What is built has no repeats and no empty buckets, and keeps the order of the grants. */
  lemma BuiltTidy(grants: seq<Grant>)
    ensures Tidy(grants, Built(grants))
  {
    ListedTidy(grants, |Keys(grants)|);
    assert Keys(grants)[..|Keys(grants)|] == Keys(grants);
  }

  /** Grants that come later take nothing away. */
  lemma LaterGrantsOnlyAdd(grants: seq<Grant>, g: Grant, lane: Lane, s: string)
    requires Visible(Built(grants), lane, s)
    ensures Visible(Built(grants + [g]), lane, s)
  {
    var all := grants + [g];
    ListedMember(grants, Keys(grants), lane, s);
    ListedMember(all, Keys(all), lane, s);
    assert all[..|all| - 1] == grants;
    var i :| 0 <= i < |grants| && Grants(grants[i], Key(lane), s);
    assert Grants(all[i], Key(lane), s);
  }

  // ---------------------------------------------------------------- roles

  /** The lanes roles grant in: none of them is named "*". */
  ghost predicate PlainLanes(grants: seq<Grant>) {
    forall i :: 0 <= i < |grants| ==> PlainLane(grants[i].lane)
  }

  predicate PlainLane(lane: Lane) {
    lane == None || lane == NORMAL || lane == CUSTOMIZATION
  }

  lemma {:induction false} RolesPlain(held: seq<Role>, checked: seq<Role>, department: Department)
    ensures PlainLanes(GrantsFor(held, checked, department))
    decreases |checked|
  {
    if checked != [] {
      RolesPlain(held, checked[..|checked| - 1], department);
      assert PlainLanes(RoleGrants(Last(checked), department));
    }
  }

  lemma KeyKnowsPlainLane(a: Lane, b: Lane)
    requires PlainLane(a) && PlainLane(b) && Key(a) == Key(b)
    ensures a == b
  {
    assert "*"[0] == '*' && "normal"[0] == 'n' && "customization"[0] == 'c';
  }

  lemma PlainLanesKept(grants: seq<Grant>)
    requires PlainLanes(grants)
    ensures LanesKept(grants)
  {
    forall i | 0 <= i < |grants| ensures KeepsLane(grants, i) {
      forall k | 0 <= k < i && Key(grants[k].lane) == Key(grants[i].lane) ensures grants[k].lane == grants[i].lane {
        KeyKnowsPlainLane(grants[k].lane, grants[i].lane);
      }
    }
  }

  lemma {:induction false} MoreRolesGrantMore(
      held: seq<Role>, more: seq<Role>, checked: seq<Role>, department: Department, g: Grant)
    requires forall r :: r in held ==> r in more
    requires g in GrantsFor(held, checked, department)
    ensures g in GrantsFor(more, checked, department)
    decreases |checked|
  {
    if checked != [] {
      var init := checked[..|checked| - 1];
      if g in GrantsFor(held, init, department) {
        MoreRolesGrantMore(held, more, init, department, g);
      }
    }
  }

  /** A user sees exactly the pairs the roles held grant. */
  lemma RolesShowExactly(held: seq<Role>, department: Department)
    ensures Exact(GrantsFor(held, CHECKED_ROLES, department))
  {
    RolesPlain(held, CHECKED_ROLES, department);
    PlainLanesKept(GrantsFor(held, CHECKED_ROLES, department));
    ExactIffLanesKept(GrantsFor(held, CHECKED_ROLES, department));
  }

  /** Adding roles, in any order and with repeats, never takes away a visible pair. */
  lemma MoreRolesShowMore(held: seq<Role>, more: seq<Role>, department: Department, lane: Lane, s: string)
    requires forall r :: r in held ==> r in more
    requires Visible(Built(GrantsFor(held, CHECKED_ROLES, department)), lane, s)
    ensures Visible(Built(GrantsFor(more, CHECKED_ROLES, department)), lane, s)
  {
    var fewer, all := GrantsFor(held, CHECKED_ROLES, department), GrantsFor(more, CHECKED_ROLES, department);
    RolesShowExactly(held, department);
    RolesShowExactly(more, department);
    assert Granted(fewer, lane, s);
    var i :| 0 <= i < |fewer| && fewer[i].lane == lane && Grants(fewer[i], Key(lane), s);
    MoreRolesGrantMore(held, more, CHECKED_ROLES, department, fewer[i]);
    var j :| 0 <= j < |all| && all[j] == fewer[i];
    assert Granted(all, lane, s);
  }

  // ---------------------------------------------------------------- in which order roles are checked

  function GrantsOf(held: seq<Role>, role: Role, department: Department): seq<Grant> {
    if role in held then RoleGrants(role, department) else []
  }

  lemma CheckedNext(held: seq<Role>, checked: seq<Role>, role: Role, department: Department)
    ensures GrantsFor(held, checked + [role], department) ==
            GrantsFor(held, checked, department) + GrantsOf(held, role, department)
  {
    assert (checked + [role])[..|checked|] == checked;
  }

  lemma FirstThree(held: seq<Role>, d: Department)
    ensures GrantsFor(held, [AuditA, AuditB, Warehouse], d) ==
            GrantsOf(held, AuditA, d) + GrantsOf(held, AuditB, d) + GrantsOf(held, Warehouse, d)
  {
    CheckedNext(held, [], AuditA, d);
    CheckedNext(held, [AuditA], AuditB, d);
    CheckedNext(held, [AuditA, AuditB], Warehouse, d);
    assert [] + [AuditA] == [AuditA] && [AuditA] + [AuditB] == [AuditA, AuditB];
    assert [AuditA, AuditB] + [Warehouse] == [AuditA, AuditB, Warehouse];
  }

  lemma FirstFive(held: seq<Role>, d: Department)
    ensures GrantsFor(held, [AuditA, AuditB, Warehouse, Outsource, CustomizationOperator], d) ==
            GrantsFor(held, [AuditA, AuditB, Warehouse], d)
            + GrantsOf(held, Outsource, d) + GrantsOf(held, CustomizationOperator, d)
  {
    var three := [AuditA, AuditB, Warehouse];
    CheckedNext(held, three, Outsource, d);
    CheckedNext(held, three + [Outsource], CustomizationOperator, d);
    assert three + [Outsource] + [CustomizationOperator] ==
           [AuditA, AuditB, Warehouse, Outsource, CustomizationOperator];
  }

  lemma AllSeven(held: seq<Role>, d: Department)
    ensures GrantsFor(held, CHECKED_ROLES, d) ==
            GrantsFor(held, [AuditA, AuditB, Warehouse, Outsource, CustomizationOperator], d)
            + GrantsOf(held, CustomizationReviewer, d) + GrantsOf(held, DeptAdmin, d)
  {
    var five := [AuditA, AuditB, Warehouse, Outsource, CustomizationOperator];
    CheckedNext(held, five, CustomizationReviewer, d);
    CheckedNext(held, five + [CustomizationReviewer], DeptAdmin, d);
    assert five + [CustomizationReviewer] + [DeptAdmin] == CHECKED_ROLES;
  }

  /** The auditors' lanes come first, then warehouse and outsource, then customization, then the department's own. */
  lemma ChecksInOrder(held: seq<Role>, d: Department)
    ensures GrantsFor(held, CHECKED_ROLES, d) ==
            GrantsOf(held, AuditA, d) + GrantsOf(held, AuditB, d) + GrantsOf(held, Warehouse, d)
            + GrantsOf(held, Outsource, d) + GrantsOf(held, CustomizationOperator, d)
            + GrantsOf(held, CustomizationReviewer, d) + GrantsOf(held, DeptAdmin, d)
  {
    FirstThree(held, d);
    FirstFive(held, d);
    AllSeven(held, d);
  }

  // ---------------------------------------------------------------- who sees what

  /** The roles that see a status in a lane, or in every lane: the grants read from the status. */
  ghost predicate MaySee(role: Role, department: Department, lane: Lane, s: string) {
    var admin := role == DeptAdmin;
    if lane == Some("normal") then
      || ((s == "PendingAuditA" || s == "RejectedByAuditA") && (role == AuditA || (admin && department == Audit)))
      || ((s == "PendingAuditB" || s == "RejectedByAuditB") && (role == AuditB || (admin && department == Audit)))
    else if lane == Some("customization") then
      || ((s == "InProgress" || s == "PendingCustomizationProduction"
           || s == "RejectedByAuditA" || s == "RejectedByAuditB")
          && (role == CustomizationOperator || (admin && department == CustomizationArt)))
      || ((s == "PendingCustomizationReview" || s == "PendingEffectReview" || s == "PendingEffectRevision")
          && (role == CustomizationReviewer || (admin && (department == Audit || department == CustomizationArt))))
    else
      && lane == None
      && (|| ((s == "PendingWarehouseQC" || s == "PendingWarehouseReceive" || s == "RejectedByWarehouse"
               || s == "PendingProductionTransfer" || s == "PendingClose")
              && (role == Warehouse || (admin && department == CloudWarehouse)))
          || ((s == "PendingOutsource" || s == "Outsourcing" || s == "PendingOutsourceReview") && role == Outsource))
  }

  /** What a role grants in one lane, one list after the other. */
  lemma ListSees(g: Grant, lane: Lane, s: string)
    ensures Granted([g], lane, s) <==> g.lane == lane && s != "" && s in g.statuses
  {
    assert [g][0] == g;
    assert Grants(g, Key(g.lane), s) <==> s != "" && s in g.statuses;
  }

  lemma GrantedSplit(a: seq<Grant>, b: seq<Grant>, lane: Lane, s: string)
    ensures Granted(a + b, lane, s) <==> Granted(a, lane, s) || Granted(b, lane, s)
  {
    var all := a + b;
    if Granted(a, lane, s) {
      var i :| 0 <= i < |a| && a[i].lane == lane && Grants(a[i], Key(lane), s);
      assert all[i] == a[i];
    }
    if Granted(b, lane, s) {
      var i :| 0 <= i < |b| && b[i].lane == lane && Grants(b[i], Key(lane), s);
      assert all[|a| + i] == b[i];
    }
    if Granted(all, lane, s) {
      var i :| 0 <= i < |all| && all[i].lane == lane && Grants(all[i], Key(lane), s);
      assert i < |a| ==> a[i] == all[i];
      assert i >= |a| ==> b[i - |a|] == all[i];
    }
  }

  lemma Literals()
    ensures "normal" != "customization"
  {
    assert "normal"[0] != "customization"[0];
  }

  lemma AdminSees(department: Department, lane: Lane, s: string)
    ensures Granted(RoleGrants(DeptAdmin, department), lane, s) <==> MaySee(DeptAdmin, department, lane, s)
  {
    Literals();
    var grants := RoleGrants(DeptAdmin, department);
    if department == Audit {
      assert grants == [grants[0]] + [grants[1]];
      GrantedSplit([grants[0]], [grants[1]], lane, s);
      ListSees(grants[0], lane, s);
      ListSees(grants[1], lane, s);
    } else if !department.OtherDepartment? {
      assert grants == [grants[0]];
      ListSees(grants[0], lane, s);
    }
  }

  lemma RoleSees(role: Role, department: Department, lane: Lane, s: string)
    ensures Granted(RoleGrants(role, department), lane, s) <==> MaySee(role, department, lane, s)
  {
    Literals();
    if role == DeptAdmin {
      AdminSees(department, lane, s);
    } else if !role.OtherRole? {
      var grants := RoleGrants(role, department);
      assert grants == [grants[0]];
      ListSees(grants[0], lane, s);
    }
  }

  lemma {:induction false} HeldSee(held: seq<Role>, checked: seq<Role>, department: Department, lane: Lane, s: string)
    ensures Granted(GrantsFor(held, checked, department), lane, s) <==>
              exists role :: role in checked && role in held && MaySee(role, department, lane, s)
    decreases |checked|
  {
    if checked != [] {
      var init, role := checked[..|checked| - 1], Last(checked);
      HeldSee(held, init, department, lane, s);
      GrantedSplit(GrantsFor(held, init, department), RoleGrants(role, department), lane, s);
      RoleSees(role, department, lane, s);
      assert forall r :: r in checked <==> r in init || r == role;
    }
  }

  /** A user sees a status in a lane if and only if one of the roles held may. */
  lemma UserSeesIff(held: seq<Role>, department: Department, lane: Lane, s: string)
    ensures Visible(Built(GrantsFor(held, CHECKED_ROLES, department)), lane, s) <==>
              exists role :: role in held && MaySee(role, department, lane, s)
  {
    RolesShowExactly(held, department);
    HeldSee(held, CHECKED_ROLES, department, lane, s);
    forall role | MaySee(role, department, lane, s) ensures role in CHECKED_ROLES {
      assert !role.OtherRole?;
    }
  }
}
