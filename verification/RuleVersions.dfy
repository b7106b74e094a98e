/**
 * How cost rules come to supersede one another (service/cost_rule_service.go) and when the rows
 * so written make lineages that agree: the superseded-by link is not stored but derived, as the
 * newest row that supersedes a rule.
 */
module RuleVersions {
  import opened Prelude
  import opened Lineage
  import opened LineageLaws

  datatype Row = Row(version: int, category: string, prev: Option<int>)

  type Rows = map<int, Row>

  // ---------------------------------------------------------------- writing rows

  /**
   * The row a draft becomes, or nothing when it is refused; `id` is zero for a new rule, and
   * `formOk` says its name, rule type, category lookup and effective dates were accepted.
   */
  function Draft(rows: Rows, formOk: bool, id: int, version: Option<int>, category: string, prev: Option<int>)
    : Option<Row>
  {
    if !formOk || category == "" then None
    else if version.Some? && version.value < 1 then None
    else if prev.None? then Some(Row(if version.Some? then version.value else 1, category, None))
    else if id != 0 && prev.value == id then None
    else if prev.value !in rows then None
    else
      var prior := rows[prev.value];
      var v := if version.Some? then version.value else prior.version + 1;
      if prior.category != "" && prior.category != category then None
      else if v <= prior.version then None
      else Some(Row(if v <= 0 then 1 else v, category, prev))
  }

  datatype Edit =
    | Create(id: int, version: Option<int>, category: string, prev: Option<int>, formOk: bool)
    | Patch(id: int, version: Option<int>, recategory: Option<string>, prev: Option<int>, formOk: bool)

  /** The draft an edit asks for; a patch keeps what it does not mention. */
  function Drafted(rows: Rows, e: Edit): Option<Row> {
    match e
    case Create(id, version, category, prev, formOk) => Draft(rows, formOk, 0, version, category, prev)
    case Patch(id, version, recategory, prev, formOk) =>
      if id !in rows then None
      else
        var now := rows[id];
        Draft(rows, formOk, id, Some(if version.Some? then version.value else now.version),
              if recategory.Some? then recategory.value else now.category,
              if prev.Some? then prev else now.prev)
  }

  function Apply(rows: Rows, e: Edit): Rows {
    var row := Drafted(rows, e);
    if row.Some? then rows[e.id := row.value] else rows
  }

  function ApplyAll(rows: Rows, edits: seq<Edit>): Rows
    decreases |edits|
  {
    if edits == [] then rows else ApplyAll(Apply(rows, edits[0]), edits[1..])
  }

  /** The rule a draft would supersede is there, is another, of the same category and of a lower version. */
  ghost predicate Supersedable(rows: Rows, id: int, version: Option<int>, category: string, prev: int) {
    && prev in rows && (id != 0 ==> prev != id)
    && (rows[prev].category == "" || rows[prev].category == category)
    && (version.Some? ==> version.value > rows[prev].version)
  }

  /** When a draft is accepted and the row it becomes: the version asked for, the next one, or the first. */
  lemma DraftMeans(rows: Rows, formOk: bool, id: int, version: Option<int>, category: string, prev: Option<int>)
    ensures var row := Draft(rows, formOk, id, version, category, prev);
            && (row.Some? <==>
                  && formOk && category != "" && (version.Some? ==> version.value >= 1)
                  && (prev.Some? ==> Supersedable(rows, id, version, category, prev.value)))
            && (row.Some? ==>
                  && row.value.category == category && row.value.prev == prev
                  && (version.Some? ==> row.value.version == version.value)
                  && (version.None? && prev.None? ==> row.value.version == 1)
                  && (version.None? && prev.Some? && rows[prev.value].version >= 0 ==>
                        row.value.version == rows[prev.value].version + 1))
  {
  }

  /** An edit writes at most its own row: a create what it was given, a patch that and else what was there. */
  lemma EditMeans(rows: Rows, e: Edit)
    ensures forall id :: id != e.id ==> (id in Apply(rows, e) <==> id in rows)
    ensures forall id :: id != e.id && id in rows ==> Apply(rows, e)[id] == rows[id]
    ensures Drafted(rows, e).Some? ==> e.id in Apply(rows, e) && Apply(rows, e)[e.id] == Drafted(rows, e).value
    ensures e.Create? && Drafted(rows, e).Some? ==> var row := Apply(rows, e)[e.id];
              row.category == e.category && row.prev == e.prev && (e.version.Some? ==> row.version == e.version.value)
    ensures e.Patch? && Drafted(rows, e).Some? ==> e.id in rows && var row, was := Apply(rows, e)[e.id], rows[e.id];
              && row.version == (if e.version.Some? then e.version.value else was.version)
              && row.category == (if e.recategory.Some? then e.recategory.value else was.category)
              && row.prev == (if e.prev.Some? then e.prev else was.prev)
    ensures Drafted(rows, e).None? ==> Apply(rows, e) == rows
    ensures e.Patch? && e.id !in rows ==> Drafted(rows, e).None?
  {
  }

  // ---------------------------------------------------------------- links lead to other rows

  /** Zero is no id, and every row supersedes another existing row, or none. */
  ghost predicate Closed(rows: Rows) {
    && 0 !in rows
    && forall id :: id in rows && rows[id].prev.Some? ==> rows[id].prev.value in rows && rows[id].prev.value != id
  }

  /** A new rule gets an id no row has. */
  ghost predicate NewId(rows: Rows, e: Edit) {
    e.Create? ==> e.id != 0 && e.id !in rows
  }

  ghost predicate NewIds(rows: Rows, edits: seq<Edit>)
    decreases |edits|
  {
    edits != [] ==> NewId(rows, edits[0]) && NewIds(Apply(rows, edits[0]), edits[1..])
  }

  lemma EditKeepsClosed(rows: Rows, e: Edit)
    requires Closed(rows) && NewId(rows, e)
    ensures Closed(Apply(rows, e))
  {
  }

  /** Every run of creates and patches keeps links leading to other rows. */
  lemma {:induction false} RunsStayClosed(rows: Rows, edits: seq<Edit>)
    requires Closed(rows) && NewIds(rows, edits)
    ensures Closed(ApplyAll(rows, edits))
    decreases |edits|
  {
    if edits != [] {
      EditKeepsClosed(rows, edits[0]);
      RunsStayClosed(Apply(rows, edits[0]), edits[1..]);
    }
  }

  // ---------------------------------------------------------------- cycles

  ghost predicate RankedRows(rows: Rows, rank: int -> int) {
    forall id :: id in rows && rows[id].prev.Some? ==> rank(rows[id].prev.value) < rank(id)
  }

  /** No rule supersedes itself, however indirectly: the rules can be ranked along their links. */
  ghost predicate Acyclic(rows: Rows) {
    exists rank: int -> int :: RankedRows(rows, rank)
  }

  /** Rows each of which supersedes the next. */
  ghost predicate Track(rows: Rows, ids: seq<int>) {
    && ids != []
    && (forall i :: 0 <= i < |ids| ==> ids[i] in rows)
    && forall i :: 0 <= i < |ids| - 1 ==> rows[ids[i]].prev == Some(ids[i + 1])
  }

  /** Rule `b` is rule `a` or one that `a` supersedes, directly or through others. */
  ghost predicate Reaches(rows: Rows, a: int, b: int) {
    exists ids :: Track(rows, ids) && ids[0] == a && Last(ids) == b
  }

  /** Ranks fall along a track. */
  lemma {:induction false} TrackFalls(rows: Rows, ids: seq<int>, rank: int -> int)
    requires RankedRows(rows, rank) && Track(rows, ids)
    ensures rank(Last(ids)) <= rank(ids[0])
    ensures |ids| > 1 ==> rank(Last(ids)) < rank(ids[0])
    decreases |ids|
  {
    if |ids| > 1 {
      var rest := ids[1..];
      assert rest[0] == ids[1] && Last(rest) == Last(ids);
      assert rows[ids[0]].prev == Some(ids[0 + 1]);
      assert Track(rows, rest) by {
        forall i | 0 <= i < |rest| - 1 ensures rows[rest[i]].prev == Some(rest[i + 1]) {
          assert rows[ids[i + 1]].prev == Some(ids[i + 1 + 1]);
        }
      }
      TrackFalls(rows, rest, rank);
      var a := ids[0];
      assert a in rows && rows[a].prev.Some? && rank(rows[a].prev.value) < rank(a);
    }
  }

  lemma ReachesFrom(rows: Rows, a: int, b: int)
    requires a in rows && rows[a].prev.Some? && Reaches(rows, rows[a].prev.value, b)
    ensures Reaches(rows, a, b)
  {
    var ids :| Track(rows, ids) && ids[0] == rows[a].prev.value && Last(ids) == b;
    assert Track(rows, [a] + ids) && Last([a] + ids) == b;
  }

  /** In an acyclic store a track to `id` meets it only at its end. */
  lemma MeetsOnce(rows: Rows, ids: seq<int>, rank: int -> int, i: nat)
    requires RankedRows(rows, rank) && Track(rows, ids) && i < |ids| - 1
    ensures ids[i] != Last(ids)
  {
    var rest := ids[i..];
    assert Track(rows, rest) by {
      forall k | 0 <= k < |rest| - 1 ensures rows[rest[k]].prev == Some(rest[k + 1]) {
        assert rows[ids[i + k]].prev == Some(ids[i + k + 1]);
      }
    }
    TrackFalls(rows, rest, rank);
  }

  /** An edit that makes a rule supersede one that reaches it leaves no ranking. */
  lemma LoopLeavesNoRank(rows: Rows, e: Edit, rank: int -> int, ids: seq<int>, rank': int -> int)
    requires RankedRows(rows, rank) && Drafted(rows, e).Some? && Track(rows, ids) && Last(ids) == e.id
    requires Drafted(rows, e).value.prev == Some(ids[0])
    ensures !RankedRows(Apply(rows, e), rank')
  {
    var rows' := Apply(rows, e);
    assert rows'[e.id].prev == Some(ids[0]);
    if RankedRows(rows', rank') {
      assert Track(rows', ids) by {
        forall i | 0 <= i < |ids| - 1 ensures rows'[ids[i]].prev == Some(ids[i + 1]) {
          MeetsOnce(rows, ids, rank, i);
        }
      }
      TrackFalls(rows', ids, rank');
    }
  }

  /** The rules that reach `id` lifted by d, all others as they are. */
  ghost function Lifted(rows: Rows, rank: int -> int, id: int, d: nat): int -> int {
    x => rank(x) + if x == id || Reaches(rows, x, id) then d else 0
  }

  lemma LiftRanks(rows: Rows, e: Edit, rank: int -> int, d: nat)
    requires Closed(rows) && RankedRows(rows, rank) && NewId(rows, e) && Drafted(rows, e).Some?
    requires var prev := Drafted(rows, e).value.prev;
             prev.Some? ==> !Reaches(rows, prev.value, e.id) && prev.value != e.id && rank(prev.value) < rank(e.id) + d
    ensures RankedRows(Apply(rows, e), Lifted(rows, rank, e.id, d))
  {
    var rows', lifted := Apply(rows, e), Lifted(rows, rank, e.id, d);
    forall x | x in rows' && rows'[x].prev.Some? ensures lifted(rows'[x].prev.value) < lifted(x) {
      var y := rows'[x].prev.value;
      if x != e.id {
        if y == e.id {
          assert Track(rows, [e.id]);
          assert Reaches(rows, e.id, e.id);
        }
        if y == e.id || Reaches(rows, y, e.id) {
          ReachesFrom(rows, x, e.id);
        }
      }
    }
  }

  /**
   * An accepted edit keeps the rules free of cycles if and only if the rule it supersedes does not
   * already reach the edited one.
   */
  lemma EditKeepsAcyclic(rows: Rows, e: Edit)
    requires Closed(rows) && Acyclic(rows) && NewId(rows, e) && Drafted(rows, e).Some?
    ensures Acyclic(Apply(rows, e)) <==> !ClosesLoop(rows, e)
  {
    var rank :| RankedRows(rows, rank);
    var prev := Drafted(rows, e).value.prev;
    if ClosesLoop(rows, e) {
      var ids :| Track(rows, ids) && ids[0] == prev.value && Last(ids) == e.id;
      forall rank' ensures !RankedRows(Apply(rows, e), rank') {
        LoopLeavesNoRank(rows, e, rank, ids, rank');
      }
    } else {
      EditKeepsClosed(rows, e);
      var d := if prev.Some? && rank(prev.value) >= rank(e.id) then rank(prev.value) - rank(e.id) + 1 else 0;
      LiftRanks(rows, e, rank, d);
    }
  }

  /** The rule the edit would supersede is, or already supersedes, the edited one. */
  ghost predicate ClosesLoop(rows: Rows, e: Edit) {
    var row := Drafted(rows, e);
    row.Some? && row.value.prev.Some? && Reaches(rows, row.value.prev.value, e.id)
  }

  /** A create never closes a loop: nothing reaches a rule that is not there yet. */
  lemma CreateClosesNoLoop(rows: Rows, e: Edit)
    requires NewId(rows, e) && e.Create?
    ensures !ClosesLoop(rows, e)
  {
  }

  /** No edit of the run closes a loop as it is made. */
  ghost predicate LoopFree(rows: Rows, edits: seq<Edit>)
    decreases |edits|
  {
    edits != [] ==> !ClosesLoop(rows, edits[0]) && LoopFree(Apply(rows, edits[0]), edits[1..])
  }

  /** The rules are free of cycles before the run, after it, and between any two of its edits. */
  ghost predicate AcyclicThroughout(rows: Rows, edits: seq<Edit>)
    decreases |edits|
  {
    Acyclic(rows) && (edits != [] ==> AcyclicThroughout(Apply(rows, edits[0]), edits[1..]))
  }

  /** Rules stay free of cycles throughout a run of edits if and only if none of the edits closes a loop. */
  lemma {:induction false} RunsAcyclicIffLoopFree(rows: Rows, edits: seq<Edit>)
    requires Closed(rows) && Acyclic(rows) && NewIds(rows, edits)
    ensures AcyclicThroughout(rows, edits) <==> LoopFree(rows, edits)
    decreases |edits|
  {
    if edits != [] {
      EditKeepsClosed(rows, edits[0]);
      if Drafted(rows, edits[0]).Some? {
        EditKeepsAcyclic(rows, edits[0]);
      }
      if !ClosesLoop(rows, edits[0]) {
        RunsAcyclicIffLoopFree(Apply(rows, edits[0]), edits[1..]);
      }
    }
  }

  const FIRST := Row(1, "C", None)
  const SECOND := Row(2, "C", Some(1))

  lemma TwoCreates(e3: Edit)
    ensures ApplyAll(map[], [Create(1, None, "C", None, true), Create(2, None, "C", Some(1), true), e3]) ==
            Apply(map[1 := FIRST, 2 := SECOND], e3)
  {
    var e1, e2 := Create(1, None, "C", None, true), Create(2, None, "C", Some(1), true);
    var r1, r2: Rows := map[1 := FIRST], map[1 := FIRST, 2 := SECOND];
    assert Apply(map[], e1) == r1;
    assert Apply(r1, e2) == r2;
    assert [e1, e2, e3][1..] == [e2, e3] && [e2, e3][1..] == [e3] && [e3][1..] == [];
    assert ApplyAll(r2, [e3]) == Apply(r2, e3);
    assert ApplyAll(r1, [e2, e3]) == Apply(r2, e3);
  }

  /** Two creates and a patch, all accepted, that leave two rules superseding each other. */
  lemma PatchMakesCycle()
    ensures var rows := ApplyAll(map[], [Create(1, None, "C", None, true), Create(2, None, "C", Some(1), true),
                                         Patch(1, Some(3), None, Some(2), true)]);
            && rows == map[1 := Row(3, "C", Some(2)), 2 := SECOND]
            && Closed(rows) && !Forked(rows) && !Acyclic(rows) && !Agrees(Read(rows))
  {
    TwoCreates(Patch(1, Some(3), None, Some(2), true));
    var rows: Rows := map[1 := Row(3, "C", Some(2)), 2 := SECOND];
    assert Apply(map[1 := FIRST, 2 := SECOND], Patch(1, Some(3), None, Some(2), true)) == rows;
    forall rank: int -> int ensures !RankedRows(rows, rank) {
      assert rows[1].prev == Some(2) && rows[2].prev == Some(1);
    }
    LineagesAgreeIff(rows);
  }

  /** Cycles are not about versions: an accepted patch can break their rise and leave no cycle. */
  lemma PatchBreaksRiseOnly()
    ensures var rows := ApplyAll(map[], [Create(1, None, "C", None, true), Create(2, None, "C", Some(1), true),
                                         Patch(1, Some(5), None, None, true)]);
            !Rising(rows) && Acyclic(rows)
  {
    TwoCreates(Patch(1, Some(5), None, None, true));
    var rows: Rows := map[1 := Row(5, "C", None), 2 := SECOND];
    assert Apply(map[1 := FIRST, 2 := SECOND], Patch(1, Some(5), None, None, true)) == rows;
    assert rows[2].prev == Some(1) && rows[1].version > rows[2].version;
    assert RankedRows(rows, (id: int) => id);
  }

  // ---------------------------------------------------------------- versions rise along links

  /** Every row supersedes an existing row of a smaller version, or none; ids are not zero. */
  ghost predicate Rising(rows: Rows) {
    && 0 !in rows
    && forall id :: id in rows && rows[id].prev.Some? ==>
         rows[id].prev.value in rows && rows[rows[id].prev.value].version < rows[id].version
  }

  /** The rows an accepted edit's rule is superseded by are newer than the version it gives the rule. */
  ghost predicate BelowSuccessors(rows: Rows, id: int, version: int) {
    forall m :: m in rows && rows[m].prev == Some(id) ==> version < rows[m].version
  }

  lemma DraftRises(rows: Rows, formOk: bool, id: int, version: Option<int>, category: string, prev: Option<int>)
    requires Draft(rows, formOk, id, version, category, prev).Some?
    ensures var row := Draft(rows, formOk, id, version, category, prev).value;
            && row.version >= 1
            && (row.prev.Some? ==> row.prev.value in rows && rows[row.prev.value].version < row.version)
  {
  }

  /** An accepted edit keeps versions rising exactly when it stays below the rows that supersede its rule. */
  lemma EditRises(rows: Rows, e: Edit)
    requires Rising(rows) && NewId(rows, e) && Drafted(rows, e).Some?
    ensures Rising(Apply(rows, e)) <==> BelowSuccessors(rows, e.id, Drafted(rows, e).value.version)
  {
    var row, rows' := Drafted(rows, e).value, Apply(rows, e);
    assert e.Patch? && row.prev == Some(e.id) ==> false;
    if !BelowSuccessors(rows, e.id, row.version) {
      var m :| m in rows && rows[m].prev == Some(e.id) && rows[m].version <= row.version;
      assert rows'[m].prev == Some(e.id);
    }
  }

  /** A create is always safe: nothing supersedes a rule that is not there yet. */
  lemma CreateRises(rows: Rows, e: Edit)
    requires Rising(rows) && NewId(rows, e) && e.Create?
    ensures Rising(Apply(rows, e))
  {
    if Drafted(rows, e).Some? {
      EditRises(rows, e);
    }
  }

  /** Each edit of the run uses a new id, and each accepted patch stays below its successors. */
  ghost predicate Careful(rows: Rows, edits: seq<Edit>)
    decreases |edits|
  {
    edits != [] ==>
      && NewId(rows, edits[0])
      && (edits[0].Patch? && Drafted(rows, edits[0]).Some? ==>
            BelowSuccessors(rows, edits[0].id, Drafted(rows, edits[0]).value.version))
      && Careful(Apply(rows, edits[0]), edits[1..])
  }

  /** Over any run of creates and careful patches, versions rise along every link. */
  lemma {:induction false} CarefulRunsRise(rows: Rows, edits: seq<Edit>)
    requires Rising(rows) && Careful(rows, edits)
    ensures Rising(ApplyAll(rows, edits))
    decreases |edits|
  {
    if edits != [] {
      if edits[0].Create? {
        CreateRises(rows, edits[0]);
      } else if Drafted(rows, edits[0]).Some? {
        EditRises(rows, edits[0]);
      }
      CarefulRunsRise(Apply(rows, edits[0]), edits[1..]);
    }
  }

  // ---------------------------------------------------------------- the derived link

  function Superseders(rows: Rows, id: int): set<int> {
    set m | m in rows && rows[m].prev == Some(id)
  }

  predicate Newer(rows: Rows, a: int, b: int)
    requires a in rows && b in rows
  {
    if rows[a].version != rows[b].version then rows[a].version > rows[b].version else a > b
  }

  ghost predicate IsNewest(rows: Rows, ids: set<int>, best: int) {
    best in ids && best in rows && forall k :: k in ids && k in rows && k != best ==> Newer(rows, best, k)
  }

  lemma Pick(ids: set<int>) returns (id: int)
    requires ids != {}
    ensures id in ids
  {
    assert exists k :: k in ids by {
      assert (forall k :: k !in ids) ==> ids == {};
    }
    id :| id in ids;
  }

  lemma {:induction false} SomeNewest(rows: Rows, ids: set<int>) returns (best: int)
    requires ids <= rows.Keys && ids != {}
    ensures IsNewest(rows, ids, best)
    decreases ids
  {
    best := Pick(ids);
    var rest := ids - {best};
    assert forall k :: k in ids && k != best ==> k in rest;
    if rest != {} {
      var other := SomeNewest(rows, rest);
      if Newer(rows, other, best) {
        best := other;
      }
    }
  }

  /** The newest of a set of rows, by version and then by id. */
  ghost function Newest(rows: Rows, ids: set<int>): (best: Option<int>)
    requires ids <= rows.Keys
    ensures best.None? <==> ids == {}
    ensures best.Some? ==> IsNewest(rows, ids, best.value)
  {
    if ids == {} then None
    else
      assert exists k :: IsNewest(rows, ids, k) by { var k := SomeNewest(rows, ids); }
      var k :| IsNewest(rows, ids, k);
      Some(k)
  }

  /** The rules as they are read: each row with its derived superseded-by link. */
  ghost function Read(rows: Rows): (view: View)
    ensures view.Keys == rows.Keys && Keyed(view)
  {
    map id | id in rows :: Rule(id, rows[id].version, rows[id].prev, Newest(rows, Superseders(rows, id)))
  }

  /** The superseded-by link leads to the superseding row of the highest version, and among those of the highest id. */
  lemma ReadMeans(rows: Rows, id: int, m: int)
    requires id in rows && m in rows && rows[m].prev == Some(id)
    ensures var r := Read(rows)[id];
            && r.version == rows[id].version && r.prev == rows[id].prev && r.next.Some?
            && r.next.value in rows && rows[r.next.value].prev == Some(id)
            && (rows[m].version < rows[r.next.value].version
                || (rows[m].version == rows[r.next.value].version && m <= r.next.value))
  {
    assert m in Superseders(rows, id);
  }

  /** Two rows supersede the same rule. */
  ghost predicate Forks(rows: Rows, a: int, b: int) {
    a in rows && b in rows && a != b && rows[a].prev.Some? && rows[a].prev == rows[b].prev
  }

  ghost predicate Forked(rows: Rows) {
    exists a, b :: Forks(rows, a, b)
  }

  lemma ReadInverse(rows: Rows)
    requires Closed(rows) && !Forked(rows)
    ensures Inverse(Read(rows))
  {
    var view := Read(rows);
    forall id, forward | id in view && Link(view[id], forward).Some? ensures LinksBack(view, view[id], forward) {
      var to := Link(view[id], forward).value;
      if !forward {
        assert id in Superseders(rows, to);
        var n := Newest(rows, Superseders(rows, to)).value;
        assert n != id ==> Forks(rows, n, id);
      } else {
        assert to in Superseders(rows, id);
      }
    }
  }

  /** A ranking of the rows ranks the rules read from them. */
  lemma ReadRanked(rows: Rows, rank: int -> int)
    requires RankedRows(rows, rank)
    ensures Ranked(Read(rows), rank)
  {
  }

  /** Loading from any member of any chain gives the whole of that chain. */
  ghost predicate Agrees(view: View)
    requires Keyed(view)
  {
    forall id, k :: id in view && 0 <= k < |ChainOf(view, view[id]).rules| ==> AgreesAt(view, view[id], k)
  }

  ghost predicate AgreesAt(view: View, r: Rule, k: nat)
    requires Keyed(view) && k < |ChainOf(view, r).rules|
  {
    ChainOf(view, ChainOf(view, r).rules[k]).rules == ChainOf(view, r).rules
  }

  /** The rule before a superseding one in its chain is the one it supersedes. */
  lemma PredecessorInChain(view: View, r: Rule, p: Rule)
    requires Keyed(view) && Target(view, r, false) == Some(p) && p.id !in Start(r)
    ensures var c := ChainOf(view, r); c.current > 0 && c.rules[c.current - 1] == p
  {
    assert Before(view, r)[0] == p;
  }

  /**
   * Of two rows superseding one rule, the one that is not its newest superseder has that rule next to
   * it in its chain, and yet that rule's own chain is another.
   */
  lemma ForkDisagrees(rows: Rows, a: int, b: int)
    requires Closed(rows) && Forks(rows, a, b) && Newest(rows, Superseders(rows, rows[a].prev.value)) != Some(b)
    ensures var view, p := Read(rows), rows[a].prev.value;
            var c := ChainOf(view, view[b]);
            && c.current > 0 && c.rules[c.current - 1] == view[p]
            && ChainOf(view, view[p]).rules != c.rules
            && !Agrees(view)
  {
    var view := Read(rows);
    var r, p := view[b], view[rows[b].prev.value];
    PredecessorInChain(view, r, p);
    var c, cp := ChainOf(view, r), ChainOf(view, p);
    var k := c.current - 1;
    AnyStoreChain(view, r);
    AnyStoreChain(view, p);
    assert cp.rules == c.rules ==> cp.current == k;
    assert cp.rules == c.rules ==> p.next == Some(b);
    assert !AgreesAt(view, r, k);
  }

  /** Where a rule stands in its own chain. */
  ghost function DepthOf(view: View): int -> int
    requires Keyed(view)
  {
    id => if Keyed(view) && id in view then ChainOf(view, view[id]).current else 0
  }

  /** When lineages agree, a rule stands in its chain one place after the rule it supersedes. */
  lemma AgreementRanks(rows: Rows)
    requires Closed(rows) && Agrees(Read(rows))
    ensures RankedRows(rows, DepthOf(Read(rows)))
  {
    var view := Read(rows);
    forall id | id in rows && rows[id].prev.Some?
      ensures DepthOf(view)(rows[id].prev.value) < DepthOf(view)(id)
    {
      var r, p := view[id], view[rows[id].prev.value];
      PredecessorInChain(view, r, p);
      var c, cp := ChainOf(view, r), ChainOf(view, p);
      AnyStoreChain(view, r);
      AnyStoreChain(view, p);
      assert AgreesAt(view, r, c.current - 1);
      assert cp.rules == c.rules && cp.rules[cp.current] == c.rules[c.current - 1];
    }
  }

  lemma UnforkedAgrees(rows: Rows, rank: int -> int)
    requires Closed(rows) && !Forked(rows) && RankedRows(rows, rank)
    ensures Agrees(Read(rows))
  {
    var view := Read(rows);
    ReadInverse(rows);
    ReadRanked(rows, rank);
    forall id, k | id in view && 0 <= k < |ChainOf(view, view[id]).rules| ensures AgreesAt(view, view[id], k) {
      SameChainFromEveryMember(view, view[id], k, rank);
    }
  }

  lemma ForkedDisagrees(rows: Rows)
    requires Closed(rows) && Forked(rows)
    ensures !Agrees(Read(rows))
  {
    var a, b :| Forks(rows, a, b);
    if Newest(rows, Superseders(rows, rows[a].prev.value)) != Some(b) {
      ForkDisagrees(rows, a, b);
    } else {
      ForkDisagrees(rows, b, a);
    }
  }

  /**
   * In every store that creates and patches can leave, lineages agree from every member if and only
   * if no two rows supersede the same rule and no rule supersedes itself, however indirectly.
   */
  lemma LineagesAgreeIff(rows: Rows)
    requires Closed(rows)
    ensures Agrees(Read(rows)) <==> !Forked(rows) && Acyclic(rows)
  {
    if Forked(rows) {
      ForkedDisagrees(rows);
    } else if Acyclic(rows) {
      var rank :| RankedRows(rows, rank);
      UnforkedAgrees(rows, rank);
    }
    if Agrees(Read(rows)) {
      AgreementRanks(rows);
    }
  }

  /** Another rule already supersedes the one the edit would. */
  ghost predicate MakesFork(rows: Rows, e: Edit) {
    var row := Drafted(rows, e);
    row.Some? && row.value.prev.Some? && exists m :: m in rows && m != e.id && rows[m].prev == row.value.prev
  }

  /** An accepted edit keeps the rules free of forks if and only if it does not make one. */
  lemma EditKeepsUnforked(rows: Rows, e: Edit)
    requires !Forked(rows) && Drafted(rows, e).Some?
    ensures Forked(Apply(rows, e)) <==> MakesFork(rows, e)
  {
    var rows', row := Apply(rows, e), Drafted(rows, e).value;
    if MakesFork(rows, e) {
      var m :| m in rows && m != e.id && rows[m].prev == row.prev;
      assert Forks(rows', m, e.id);
    }
    if Forked(rows') {
      var a, b :| Forks(rows', a, b);
      assert a != e.id && b != e.id ==> Forks(rows, a, b);
      assert rows'[if a == e.id then b else a].prev == row.prev;
    }
  }

  /** Neither of the two ways an edit can make lineages disagree. */
  ghost predicate Harmless(rows: Rows, e: Edit) {
    !MakesFork(rows, e) && !ClosesLoop(rows, e)
  }

  /** An edit keeps agreeing lineages in agreement if and only if it makes no fork and closes no loop. */
  lemma EditKeepsAgreement(rows: Rows, e: Edit)
    requires Closed(rows) && NewId(rows, e) && Agrees(Read(rows))
    ensures Agrees(Read(Apply(rows, e))) <==> Harmless(rows, e)
  {
    LineagesAgreeIff(rows);
    if Drafted(rows, e).Some? {
      EditKeepsClosed(rows, e);
      EditKeepsAcyclic(rows, e);
      EditKeepsUnforked(rows, e);
      LineagesAgreeIff(Apply(rows, e));
    }
  }

  ghost predicate AllHarmless(rows: Rows, edits: seq<Edit>)
    decreases |edits|
  {
    edits != [] ==> Harmless(rows, edits[0]) && AllHarmless(Apply(rows, edits[0]), edits[1..])
  }

  ghost predicate AgreesThroughout(rows: Rows, edits: seq<Edit>)
    decreases |edits|
  {
    Agrees(Read(rows)) && (edits != [] ==> AgreesThroughout(Apply(rows, edits[0]), edits[1..]))
  }

  /** Lineages agree throughout a run of edits if and only if each of them is harmless as it is made. */
  lemma {:induction false} RunsAgreeIffHarmless(rows: Rows, edits: seq<Edit>)
    requires Closed(rows) && Agrees(Read(rows)) && NewIds(rows, edits)
    ensures AgreesThroughout(rows, edits) <==> AllHarmless(rows, edits)
    decreases |edits|
  {
    if edits != [] {
      EditKeepsAgreement(rows, edits[0]);
      EditKeepsClosed(rows, edits[0]);
      if Harmless(rows, edits[0]) {
        RunsAgreeIffHarmless(Apply(rows, edits[0]), edits[1..]);
      }
    }
  }

  /** Three accepted creates that fork a lineage: both heads then claim to be the latest version. */
  lemma CreatesCanFork()
    ensures var edits := [Create(1, None, "C", None, true), Create(2, None, "C", Some(1), true),
                          Create(3, None, "C", Some(1), true)];
            var rows := ApplyAll(map[], edits);
            Rising(rows) && Forked(rows) && !Agrees(Read(rows))
  {
    TwoCreates(Create(3, None, "C", Some(1), true));
    var rows: Rows := map[1 := FIRST, 2 := SECOND, 3 := SECOND];
    assert Apply(map[1 := FIRST, 2 := SECOND], Create(3, None, "C", Some(1), true)) == rows;
    assert Forks(rows, 2, 3);
    LineagesAgreeIff(rows);
  }
}
