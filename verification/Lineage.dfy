/**
 * Cost rule lineage (service/cost_governance_read_model.go): the chain of versions around a rule,
 * found by walking supersedes links back and superseded-by links forward through a cached store
 * that may be inconsistent or cyclic.
 */
module Lineage {
  import opened Prelude

  /** A cost rule as the lineage reads it: `prev` is the rule it supersedes, `next` the one superseding it. */
  datatype Rule = Rule(id: int, version: int, prev: Option<int>, next: Option<int>)

  type View = map<int, Rule>

  /** The repository's contract: a row is found under its own id. */
  ghost predicate Keyed(view: View) {
    forall id :: id in view ==> view[id].id == id
  }

  function Link(r: Rule, forward: bool): Option<int> {
    if forward then r.next else r.prev
  }

  /** The rule a link leads to; id zero and ids without a row lead nowhere. */
  function Target(view: View, r: Rule, forward: bool): Option<Rule> {
    var link := Link(r, forward);
    if link.Some? && link.value != 0 && link.value in view then Some(view[link.value]) else None
  }

  /** The rules met from `cursor` until a link leads nowhere or to a rule already visited. */
  function Walk(view: View, cursor: Rule, forward: bool, visited: set<int>): seq<Rule>
    requires Keyed(view)
    decreases view.Keys - visited
  {
    var to := Target(view, cursor, forward);
    if to.None? || to.value.id in visited then []
    else [to.value] + Walk(view, to.value, forward, visited + {to.value.id})
  }

  function Ids(rules: seq<Rule>): set<int> {
    set r <- rules :: r.id
  }

  function Reversed(rules: seq<Rule>): seq<Rule> {
    seq(|rules|, i requires 0 <= i < |rules| => rules[|rules| - 1 - i])
  }

  datatype Chain = Chain(rules: seq<Rule>, current: nat)

  function Start(r: Rule): set<int> {
    if r.id != 0 then {r.id} else {}
  }

  function Before(view: View, r: Rule): seq<Rule>
    requires Keyed(view)
  {
    Walk(view, r, false, Start(r))
  }

  function After(view: View, r: Rule): seq<Rule>
    requires Keyed(view)
  {
    Walk(view, r, true, Start(r) + Ids(Before(view, r)))
  }

  function ChainOf(view: View, r: Rule): Chain
    requires Keyed(view)
  {
    Chain(Reversed(Before(view, r)) + [r] + After(view, r), |Before(view, r)|)
  }

  /** What a rule is decorated with. */
  datatype Decoration = Decoration(
    depth: nat, root: Rule, latest: Rule, total: nat, isLatest: bool,
    previous: Option<Rule>, following: Option<Rule>, chain: seq<Rule>)

  function Decorated(c: Chain): Decoration
    requires c.current < |c.rules|
  {
    var n := |c.rules|;
    Decoration(c.current, c.rules[0], c.rules[n - 1], n, c.current == n - 1,
               if c.current > 0 then Some(c.rules[c.current - 1]) else None,
               if c.current + 1 < n then Some(c.rules[c.current + 1]) else None,
               c.rules)
  }

  /** One step of a walk moves one rule from what is left to what was met. */
  lemma WalkStep(view: View, cursor: Rule, forward: bool, visited: set<int>, met: seq<Rule>)
    requires Keyed(view)
    ensures var to := Target(view, cursor, forward);
            to.Some? && to.value.id !in visited ==>
              && met + Walk(view, cursor, forward, visited)
                   == met + [to.value] + Walk(view, to.value, forward, visited + {to.value.id})
              && Ids(met + [to.value]) == Ids(met) + {to.value.id}
              && to.value.id in view.Keys
  {
    IdsConcat(met, if Target(view, cursor, forward).Some? then [Target(view, cursor, forward).value] else []);
  }

  lemma IdsConcat(a: seq<Rule>, b: seq<Rule>)
    ensures Ids(a + b) == Ids(a) + Ids(b)
  {
    assert forall r :: r in a + b <==> r in a || r in b;
  }

  // ---------------------------------------------------------------- the loader

  /** In-place reversal, two indices moving towards each other. */
  method ReverseSlice(items: array<Rule>)
    modifies items
    ensures items[..] == Reversed(old(items[..]))
  {
    var left, right := 0, items.Length - 1;
    while left < right
      invariant 0 <= left && right == items.Length - 1 - left && left <= right + 2
      invariant forall k :: 0 <= k < left || right < k < items.Length ==> items[k] == old(items[items.Length - 1 - k])
      invariant forall k :: left <= k <= right ==> items[k] == old(items[k])
    {
      items[left], items[right] := items[right], items[left];
      left, right := left + 1, right - 1;
    }
  }

  class LineageLoader {
    const store: View
    var cache: View

    constructor (store: View)
      requires Keyed(store)
      ensures this.store == store && cache == map[] && Valid() && Seen() == store
    {
      this.store := store;
      cache := map[];
    }

    ghost predicate Valid()
      reads this
    {
      Keyed(store) && Keyed(cache)
    }

    /** What reads through this loader see: cached rules first, then the store. */
    ghost function Seen(): View
      reads this
    {
      store + cache
    }

    method Get(id: int) returns (r: Option<Rule>)
      requires Valid()
      modifies this`cache
      ensures Valid() && Seen() == old(Seen())
      ensures r == if id != 0 && id in Seen() then Some(Seen()[id]) else None
    {
      if id == 0 {
        return None;
      }
      if id in cache {
        return Some(cache[id]);
      }
      if id !in store {
        return None;
      }
      cache := cache[id := store[id]];
      return Some(store[id]);
    }

    /** Follows the links of one direction from `rule`, collecting what it meets. */
    method Collect(rule: Rule, forward: bool, seen: set<int>) returns (met: seq<Rule>, visited: set<int>)
      requires Valid()
      modifies this`cache
      ensures Valid() && Seen() == old(Seen())
      ensures met == Walk(Seen(), rule, forward, seen) && visited == seen + Ids(met)
    {
      ghost var view := Seen();
      met, visited := [], seen;
      var cursor := rule;
      while true
        invariant Valid() && Seen() == view
        invariant met + Walk(view, cursor, forward, visited) == Walk(view, rule, forward, seen)
        invariant visited == seen + Ids(met)
        decreases view.Keys - visited
      {
        var link := Link(cursor, forward);
        if link.None? || link.value == 0 {
          break;
        }
        var to := Get(link.value);
        assert to == Target(view, cursor, forward);
        if to.None? || to.value.id in visited {
          break;
        }
        WalkStep(view, cursor, forward, visited, met);
        visited := visited + {to.value.id};
        met := met + [to.value];
        cursor := to.value;
      }
    }

    method LoadChain(rule: Rule) returns (chain: seq<Rule>, current: nat)
      requires Valid()
      modifies this`cache
      ensures Valid() && Seen() == old(Seen())
      ensures Chain(chain, current) == ChainOf(Seen(), rule)
    {
      var previous, visited := Collect(rule, false, Start(rule));
      var items := new Rule[|previous|](i requires 0 <= i < |previous| => previous[i]);
      assert items[..] == previous;
      ReverseSlice(items);
      chain := items[..] + [rule];
      current := |chain| - 1;
      var following, _ := Collect(rule, true, visited);
      chain := chain + following;
    }

    method Decorate(rule: Rule) returns (d: Decoration)
      requires Valid()
      modifies this`cache
      ensures Valid() && Seen() == if rule.id != 0 then old(Seen())[rule.id := rule] else old(Seen())
      ensures d == Decorated(ChainOf(Seen(), rule))
    {
      if rule.id != 0 {
        cache := cache[rule.id := rule];
      }
      assert Seen() == if rule.id != 0 then old(Seen())[rule.id := rule] else old(Seen());
      var chain, current := LoadChain(rule);
      d := Decorated(Chain(chain, current));
    }
  }

  /** One loader and its cache serve the whole list, and give each rule what a fresh loader would. */
  method DecorateList(store: View, items: seq<Rule>) returns (out: seq<Decoration>)
    requires Keyed(store)
    requires forall k :: 0 <= k < |items| ==> items[k].id in store && store[items[k].id] == items[k]
    ensures |out| == |items|
    ensures forall k :: 0 <= k < |items| ==> out[k] == Decorated(ChainOf(store, items[k]))
  {
    var loader := new LineageLoader(store);
    out := [];
    for k := 0 to |items|
      invariant loader.Valid() && loader.Seen() == store && |out| == k
      invariant forall j :: 0 <= j < k ==> out[j] == Decorated(ChainOf(store, items[j]))
    {
      var d := loader.Decorate(items[k]);
      assert store[items[k].id := items[k]] == store;
      out := out + [d];
    }
  }
}
