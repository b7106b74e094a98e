/** What a lineage chain is: for any store at all, and for stores whose links are inverse and acyclic. */
module LineageLaws {
  import opened Prelude
  import opened Lineage

  ghost predicate DistinctIds(rules: seq<Rule>) {
    forall i, j :: 0 <= i < j < |rules| ==> rules[i].id != rules[j].id
  }

  /** Each rule's link leads to the next one. */
  ghost predicate Linked(rules: seq<Rule>, forward: bool) {
    forall k :: 0 <= k < |rules| - 1 ==> Link(rules[k], forward) == Some(rules[k + 1].id)
  }

  /** Rules found in the view; zero is no rule's id. */
  ghost predicate Found(view: View, rules: seq<Rule>) {
    forall k :: 0 <= k < |rules| ==> rules[k].id != 0 && rules[k].id in view && view[rules[k].id] == rules[k]
  }

  // ---------------------------------------------------------------- any store

  /** A walk meets distinct, unvisited rules, each by the link of the one before. */
  lemma {:induction false} WalkFacts(view: View, cursor: Rule, forward: bool, visited: set<int>)
    requires Keyed(view)
    ensures var w := Walk(view, cursor, forward, visited);
            && Found(view, w) && DistinctIds(w) && Linked([cursor] + w, forward)
            && (forall k :: 0 <= k < |w| ==> w[k].id !in visited)
    decreases view.Keys - visited
  {
    var to := Target(view, cursor, forward);
    if to.Some? && to.value.id !in visited {
      var rest := Walk(view, to.value, forward, visited + {to.value.id});
      var w := Walk(view, cursor, forward, visited);
      WalkFacts(view, to.value, forward, visited + {to.value.id});
      assert w == [to.value] + rest;
      assert forall k :: 1 <= k < |w| ==> w[k] == rest[k - 1];
      forall k | 0 <= k < |w| ensures Link(([cursor] + w)[k], forward) == Some(([cursor] + w)[k + 1].id) {
        assert k > 0 ==> ([cursor] + w)[k] == w[k - 1] == ([to.value] + rest)[k - 1];
      }
    }
  }

  /** A walk stops only where the link leads nowhere or back to a rule already seen. */
  lemma {:induction false} WalkStops(view: View, cursor: Rule, forward: bool, visited: set<int>)
    requires Keyed(view)
    ensures var w := Walk(view, cursor, forward, visited);
            var to := Target(view, Last([cursor] + w), forward);
            to.None? || to.value.id in visited + Ids(w)
    decreases view.Keys - visited
  {
    var to := Target(view, cursor, forward);
    if to.Some? && to.value.id !in visited {
      var visited' := visited + {to.value.id};
      var rest := Walk(view, to.value, forward, visited');
      WalkStops(view, to.value, forward, visited');
      assert Last([cursor] + ([to.value] + rest)) == Last([to.value] + rest);
      IdsConcat([to.value], rest);
      assert visited + Ids([to.value] + rest) == visited' + Ids(rest);
    }
  }

  /** What holds of every lineage chain, however inconsistent the links. */
  ghost predicate WellFormed(view: View, r: Rule, c: Chain) {
    && c.current < |c.rules| && c.rules[c.current] == r
    && DistinctIds(c.rules)
    && JoinedBehind(c.rules, c.current) && JoinedAhead(c.rules, c.current)
    && Ended(view, c.rules, c.rules[0], false) && Ended(view, c.rules, Last(c.rules), true)
  }

  /** Up to `current` each rule supersedes the one before it. */
  ghost predicate JoinedBehind(c: seq<Rule>, current: nat)
    requires current < |c|
  {
    forall k :: 0 <= k < current ==> c[k + 1].prev == Some(c[k].id)
  }

  /** From `current` each rule is superseded by the one after it. */
  ghost predicate JoinedAhead(c: seq<Rule>, current: nat) {
    forall k :: current <= k < |c| - 1 ==> c[k].next == Some(c[k + 1].id)
  }

  /** At this end the link leads nowhere or back into the chain. */
  ghost predicate Ended(view: View, rules: seq<Rule>, end: Rule, forward: bool) {
    var to := Target(view, end, forward);
    to.Some? ==> exists k :: 0 <= k < |rules| && rules[k].id == to.value.id
  }

  lemma ReversedKeeps(view: View, rules: seq<Rule>)
    ensures DistinctIds(rules) ==> DistinctIds(Reversed(rules))
    ensures Found(view, rules) ==> Found(view, Reversed(rules))
    ensures Ids(Reversed(rules)) == Ids(rules)
  {
    var n, out := |rules|, Reversed(rules);
    forall i, j | 0 <= i < j < n && DistinctIds(rules) ensures out[i].id != out[j].id {
      assert rules[n - 1 - j].id != rules[n - 1 - i].id;
    }
    forall r | r in rules ensures r in out {
      var k :| 0 <= k < n && rules[k] == r;
      assert out[n - 1 - k] == r;
    }
    assert forall r :: r in out ==> r in rules;
  }

  lemma Joined(view: View, a: seq<Rule>, b: seq<Rule>)
    requires Ids(a) !! Ids(b)
    ensures DistinctIds(a) && DistinctIds(b) ==> DistinctIds(a + b)
    ensures Found(view, a) && Found(view, b) ==> Found(view, a + b)
  {
    var c := a + b;
    forall i, j | 0 <= i < j < |c| && DistinctIds(a) && DistinctIds(b) ensures c[i].id != c[j].id {
      if j < |a| {
        assert c[i] == a[i] && c[j] == a[j];
      } else if i >= |a| {
        assert c[i] == b[i - |a|] && c[j] == b[j - |a|];
      } else {
        assert c[i] == a[i] && c[j] == b[j - |a|] && a[i].id in Ids(a) && b[j - |a|].id in Ids(b);
      }
    }
  }

  /** The parts of a chain have no id in common. */
  lemma PartsDisjoint(view: View, r: Rule)
    requires Keyed(view)
    ensures DistinctIds(Before(view, r)) && DistinctIds(After(view, r))
    ensures Found(view, Before(view, r)) && Found(view, After(view, r))
    ensures Ids(Reversed(Before(view, r))) !! Ids([r])
    ensures Ids(Reversed(Before(view, r)) + [r]) !! Ids(After(view, r))
  {
    var back := Before(view, r);
    WalkFacts(view, r, false, Start(r));
    WalkFacts(view, r, true, Start(r) + Ids(back));
    ReversedKeeps(view, back);
    IdsConcat(Reversed(back), [r]);
    assert Ids([r]) == {r.id};
  }

  lemma ChainDistinct(view: View, r: Rule)
    requires Keyed(view)
    ensures DistinctIds(ChainOf(view, r).rules)
  {
    var front := Reversed(Before(view, r));
    PartsDisjoint(view, r);
    ReversedKeeps(view, Before(view, r));
    Joined(view, front, [r]);
    Joined(view, front + [r], After(view, r));
  }

  lemma LinkedBehind(back: seq<Rule>, r: Rule, ahead: seq<Rule>)
    requires Linked([r] + back, false)
    ensures JoinedBehind(Reversed(back) + [r] + ahead, |back|)
  {
    var c := Reversed(back) + [r] + ahead;
    forall k | 0 <= k < |back| ensures c[k + 1].prev == Some(c[k].id) {
      var m := |back| - 1 - k;
      assert c[k] == ([r] + back)[m + 1];
      assert c[k + 1] == ([r] + back)[m];
      assert Link(([r] + back)[m], false) == Some(([r] + back)[m + 1].id);
    }
  }

  lemma LinkedAhead(front: seq<Rule>, r: Rule, ahead: seq<Rule>)
    requires Linked([r] + ahead, true)
    ensures JoinedAhead(front + [r] + ahead, |front|)
  {
    var c := front + [r] + ahead;
    forall k | |front| <= k < |c| - 1 ensures c[k].next == Some(c[k + 1].id) {
      var m := k - |front|;
      assert c[k] == ([r] + ahead)[m] && c[k + 1] == ([r] + ahead)[m + 1];
      assert Link(([r] + ahead)[m], true) == Some(([r] + ahead)[m + 1].id);
    }
  }

  lemma ChainLinked(view: View, r: Rule)
    requires Keyed(view)
    ensures var c := ChainOf(view, r); JoinedBehind(c.rules, c.current) && JoinedAhead(c.rules, c.current)
  {
    var back, ahead := Before(view, r), After(view, r);
    WalkFacts(view, r, false, Start(r));
    WalkFacts(view, r, true, Start(r) + Ids(back));
    LinkedBehind(back, r, ahead);
    LinkedAhead(Reversed(back), r, ahead);
  }

  lemma SeenInChain(view: View, r: Rule, id: int)
    requires Keyed(view) && id in Start(r) + Ids(Before(view, r)) + Ids(After(view, r))
    ensures exists k :: 0 <= k < |ChainOf(view, r).rules| && ChainOf(view, r).rules[k].id == id
  {
    var back, ahead, all := Before(view, r), After(view, r), ChainOf(view, r).rules;
    if id in Start(r) {
      assert all[|back|] == r;
    } else if id in Ids(back) {
      var m :| 0 <= m < |back| && back[m].id == id;
      assert all[|back| - 1 - m] == back[m];
    } else {
      var m :| 0 <= m < |ahead| && ahead[m].id == id;
      assert all[|back| + 1 + m] == ahead[m];
    }
  }

  lemma ChainEnded(view: View, r: Rule)
    requires Keyed(view)
    ensures var c := ChainOf(view, r).rules; Ended(view, c, c[0], false) && Ended(view, c, Last(c), true)
  {
    var back, ahead, c := Before(view, r), After(view, r), ChainOf(view, r).rules;
    WalkStops(view, r, false, Start(r));
    WalkStops(view, r, true, Start(r) + Ids(back));
    assert Last([r] + back) == c[0];
    assert Last([r] + ahead) == Last(c);
    var first, last := Target(view, c[0], false), Target(view, Last(c), true);
    if first.Some? {
      SeenInChain(view, r, first.value.id);
    }
    if last.Some? {
      SeenInChain(view, r, last.value.id);
    }
  }

  /**
   * For any store, cyclic or not: the chain has pairwise distinct rules, the starting rule at its
   * index, adjacent rules joined by the link that was followed, and no reason to go on at either end.
   */
  lemma AnyStoreChain(view: View, r: Rule)
    requires Keyed(view)
    ensures WellFormed(view, r, ChainOf(view, r))
  {
    ChainDistinct(view, r);
    ChainLinked(view, r);
    ChainEnded(view, r);
  }

  /**
   * What a decoration shows, in any store: the neighbours are the rules this one's own links lead to,
   * they and the ends are those of the chain, and a rule is the latest exactly when nothing follows it.
   */
  lemma DecorationMeans(view: View, r: Rule)
    requires Keyed(view)
    ensures var d := Decorated(ChainOf(view, r));
            && d.total == |d.chain| && d.depth < d.total && d.chain[d.depth] == r
            && d.root == d.chain[0] && d.latest == d.chain[d.total - 1]
            && (d.previous.None? <==> d.depth == 0) && (d.following.None? <==> d.depth == d.total - 1)
            && (d.previous.Some? ==> r.prev == Some(d.previous.value.id) && d.chain[d.depth - 1] == d.previous.value)
            && (d.following.Some? ==> r.next == Some(d.following.value.id) && d.chain[d.depth + 1] == d.following.value)
            && (d.isLatest <==> d.following.None?)
  {
    AnyStoreChain(view, r);
    var c := ChainOf(view, r);
    if c.current > 0 {
      assert c.rules[(c.current - 1) + 1].prev == Some(c.rules[c.current - 1].id);
    }
  }

  // ---------------------------------------------------------------- inverse and acyclic links

  /** Supersedes and superseded-by are inverse: every link leads to a rule that links back. */
  ghost predicate Inverse(view: View) {
    && Keyed(view) && 0 !in view
    && forall id, forward :: id in view && Link(view[id], forward).Some? ==> LinksBack(view, view[id], forward)
  }

  ghost predicate LinksBack(view: View, r: Rule, forward: bool) {
    var to := Target(view, r, forward);
    to.Some? && Link(to.value, !forward) == Some(r.id)
  }

  /** Links rise in rank from superseded to superseding. */
  ghost predicate Ranked(view: View, rank: int -> int) {
    forall id :: id in view && view[id].prev.Some? ==> rank(view[id].prev.value) < rank(id)
  }

  /** A whole line of versions: linked both ways, with nothing before and nothing after. */
  ghost predicate Spine(view: View, c: seq<Rule>) {
    && c != [] && Found(view, c) && DistinctIds(c)
    && c[0].prev == None && Last(c).next == None
    && (forall k :: 0 <= k < |c| - 1 ==> c[k].next == Some(c[k + 1].id) && c[k + 1].prev == Some(c[k].id))
  }

  lemma {:induction false} SpineBack(view: View, c: seq<Rule>, k: nat, visited: set<int>)
    requires Keyed(view) && Spine(view, c) && k < |c|
    requires forall j :: 0 <= j < k ==> c[j].id !in visited
    ensures Walk(view, c[k], false, visited) == Reversed(c[..k])
  {
    if k > 0 {
      assert c[(k - 1) + 1].prev == Some(c[k - 1].id);
      SpineBack(view, c, k - 1, visited + {c[k - 1].id});
      ReversedSnoc(c[..k - 1], c[k - 1]);
      assert c[..k - 1] + [c[k - 1]] == c[..k];
    }
  }

  lemma ReversedSnoc(rules: seq<Rule>, r: Rule)
    ensures Reversed(rules + [r]) == [r] + Reversed(rules)
  {
  }

  lemma ReversedTwice(rules: seq<Rule>)
    ensures Reversed(Reversed(rules)) == rules
  {
  }

  lemma {:induction false} SpineAhead(view: View, c: seq<Rule>, k: nat, visited: set<int>)
    requires Keyed(view) && Spine(view, c) && k < |c|
    requires forall j :: k < j < |c| ==> c[j].id !in visited
    ensures Walk(view, c[k], true, visited) == c[k + 1..]
    decreases |c| - k
  {
    if k + 1 < |c| {
      SpineAhead(view, c, k + 1, visited + {c[k + 1].id});
      assert c[k + 1..] == [c[k + 1]] + c[k + 2..];
    } else {
      assert c[k] == Last(c);
    }
  }

  lemma LaterNotEarlier(c: seq<Rule>, k: nat, j: nat)
    requires DistinctIds(c) && k < j < |c|
    ensures c[j].id !in Ids(Reversed(c[..k]))
  {
    assert forall m :: 0 <= m < k ==> Reversed(c[..k])[m] == c[k - 1 - m];
  }

  lemma SpineBefore(view: View, c: seq<Rule>, k: nat)
    requires Keyed(view) && Spine(view, c) && k < |c|
    ensures Before(view, c[k]) == Reversed(c[..k])
  {
    SpineBack(view, c, k, Start(c[k]));
  }

  lemma SpineAfter(view: View, c: seq<Rule>, k: nat)
    requires Keyed(view) && Spine(view, c) && k < |c|
    ensures After(view, c[k]) == c[k + 1..]
  {
    SpineBefore(view, c, k);
    var visited := Start(c[k]) + Ids(Before(view, c[k]));
    forall j | k < j < |c| ensures c[j].id !in visited {
      LaterNotEarlier(c, k, j);
    }
    SpineAhead(view, c, k, visited);
  }

  /** Loaded from any of its rules, a spine comes back whole. */
  lemma SpineChain(view: View, c: seq<Rule>, k: nat)
    requires Keyed(view) && Spine(view, c) && k < |c|
    ensures ChainOf(view, c[k]) == Chain(c, k)
  {
    SpineBefore(view, c, k);
    SpineAfter(view, c, k);
    ReversedTwice(c[..k]);
    assert c[..k] + [c[k]] + c[k + 1..] == c;
  }

  /** Ranks rise along a chain. */
  lemma {:induction false} RankRises(view: View, c: seq<Rule>, rank: int -> int, i: nat, j: nat)
    requires i <= j < |c| && Found(view, c) && Ranked(view, rank)
    requires forall k :: 0 <= k < |c| - 1 ==> c[k + 1].prev == Some(c[k].id)
    ensures rank(c[i].id) <= rank(c[j].id)
    decreases j
  {
    if i < j {
      assert c[(j - 1) + 1].prev == Some(c[j - 1].id);
      RankRises(view, c, rank, i, j - 1);
    }
  }

  lemma ChainFound(view: View, r: Rule)
    requires Keyed(view) && 0 !in view && r.id in view && view[r.id] == r
    ensures Found(view, ChainOf(view, r).rules)
  {
    var front := Reversed(Before(view, r));
    PartsDisjoint(view, r);
    ReversedKeeps(view, Before(view, r));
    Joined(view, front, [r]);
    Joined(view, front + [r], After(view, r));
  }

  /** In a chain of inverse links, both links of every adjacent pair are there. */
  lemma BothLinks(view: View, r: Rule, k: nat)
    requires Inverse(view) && r.id in view && view[r.id] == r
    requires k + 1 < |ChainOf(view, r).rules|
    ensures var c := ChainOf(view, r).rules; c[k].next == Some(c[k + 1].id) && c[k + 1].prev == Some(c[k].id)
  {
    var c := ChainOf(view, r);
    ChainLinked(view, r);
    ChainFound(view, r);
    if k < c.current {
      assert c.rules[k + 1].prev == Some(c.rules[k].id);
      assert LinksBack(view, view[c.rules[k + 1].id], false);
    } else {
      assert c.rules[k].next == Some(c.rules[k + 1].id);
      assert Link(view[c.rules[k].id], true).Some?;
      assert LinksBack(view, view[c.rules[k].id], true);
    }
  }

  /** Rules linked both ways in a ranked view have nothing before the first nor after the last inside them. */
  lemma EndsOpen(view: View, c: seq<Rule>, rank: int -> int)
    requires Inverse(view) && Ranked(view, rank) && Found(view, c) && c != []
    requires forall k :: 0 <= k < |c| - 1 ==> c[k + 1].prev == Some(c[k].id)
    requires Ended(view, c, c[0], false) && Ended(view, c, Last(c), true)
    ensures c[0].prev == None && Last(c).next == None
  {
    if c[0].prev.Some? {
      assert Link(view[c[0].id], false).Some? && LinksBack(view, view[c[0].id], false);
      var k :| 0 <= k < |c| && c[k].id == c[0].prev.value;
      RankRises(view, c, rank, 0, k);
      assert false;
    }
    if Last(c).next.Some? {
      var last := Last(c);
      assert Link(view[last.id], true).Some? && LinksBack(view, view[last.id], true);
      var k :| 0 <= k < |c| && c[k].id == last.next.value;
      assert view[c[k].id].prev == Some(last.id);
      RankRises(view, c, rank, k, |c| - 1);
      assert false;
    }
  }

  /** With inverse, acyclic links a chain is the whole line: the walks end only where no link is left. */
  lemma ChainIsSpine(view: View, r: Rule, rank: int -> int)
    requires Inverse(view) && Ranked(view, rank) && r.id in view && view[r.id] == r
    ensures Spine(view, ChainOf(view, r).rules)
  {
    var c := ChainOf(view, r).rules;
    AnyStoreChain(view, r);
    ChainFound(view, r);
    forall k | 0 <= k < |c| - 1 ensures c[k].next == Some(c[k + 1].id) && c[k + 1].prev == Some(c[k].id) {
      BothLinks(view, r, k);
    }
    EndsOpen(view, c, rank);
  }

  /**
   * In a store of inverse, acyclic links, loading from any member of a chain yields the same chain:
   * its depth is its position, all share root and latest, and it is the latest exactly at the end.
   */
  lemma SameChainFromEveryMember(view: View, r: Rule, k: nat, rank: int -> int)
    requires Inverse(view) && Ranked(view, rank) && r.id in view && view[r.id] == r
    requires k < |ChainOf(view, r).rules|
    ensures var c := ChainOf(view, r).rules;
            var d := Decorated(ChainOf(view, c[k]));
            && d.chain == c && d.depth == k && (d.isLatest <==> k == |c| - 1)
            && d.root == c[0] && d.latest == Last(c) && d.total == |c|
            && d.previous == (if k > 0 then Some(c[k - 1]) else None)
            && d.following == (if k + 1 < |c| then Some(c[k + 1]) else None)
  {
    ChainIsSpine(view, r, rank);
    SpineChain(view, ChainOf(view, r).rules, k);
  }
}
