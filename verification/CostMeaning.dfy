/**
 * What a cost preview answers, said of the request and the sorted rules alone: sizes, quantity,
 * which rules apply, when a review is asked for, and the amount.
 */
module CostMeaning {
  import opened Prelude
  import opened CostPreview
  import opened CostLaws

  // ---------------------------------------------------------------- the request

  predicate Positive(x: Option<real>) {
    x.Some? && x.value > 0.0
  }

  /** The request states an area, or both sides: then its text is not consulted. */
  predicate StatesSize(req: Request) {
    req.given.area.Some? || (req.given.width.Some? && req.given.height.Some?)
  }

  /** The size used: what the request gives wins over its text. */
  function Used(req: Request, given: Option<real>, text: Option<real>): Option<real> {
    if given.Some? || StatesSize(req) then given else text
  }

  /** The stated area when positive, else the product of two positive sides, else nothing. */
  ghost predicate IsInputArea(req: Request, x: real) {
    var a := Used(req, req.given.area, req.fromText.area);
    var w := Used(req, req.given.width, req.fromText.width);
    var h := Used(req, req.given.height, req.fromText.height);
    if Positive(a) then x == a.value
    else if Positive(w) && Positive(h) then x == w.value * h.value
    else x == 0.0
  }

  /** Surcharge thresholds compare with the product of the sides, except for box layouts and without sides. */
  ghost predicate IsBasis(req: Request, x: real) {
    var w := Used(req, req.given.width, req.fromText.width);
    var h := Used(req, req.given.height, req.fromText.height);
    if !req.boxLayout && Positive(w) && Positive(h) then x == w.value * h.value else IsInputArea(req, x)
  }

  ghost predicate IsQuantity(quantity: Option<int>, q: int) {
    if quantity.Some? && quantity.value > 0 then q == quantity.value else q == 1
  }

  /** The facts the rules read are those of the request. */
  ghost predicate Read(req: Request, f: Facts, q: int) {
    && IsInputArea(req, f.area) && IsBasis(req, f.basis) && IsQuantity(req.quantity, q)
    && f.doubleSided == req.doubleSided && f.copper == req.copper && f.mentioned == req.mentioned
  }

  lemma RequestIsRead(req: Request)
    ensures Read(req, FactsOf(req), QuantityOf(req.quantity))
  {
  }

  /** A charge is proportional to price, to area and to tax, and a unit of each costs one. */
  lemma PricedInProportion(x: real, price: real, area: real, tax: real)
    ensures Priced(x * price, area, tax) == x * Priced(price, area, tax)
    ensures Priced(price, x * area, tax) == x * Priced(price, area, tax)
    ensures Priced(price, area, x * tax) == x * Priced(price, area, tax)
    ensures Priced(1.0, 1.0, 1.0) == 1.0
  {
  }

  // ---------------------------------------------------------------- reviews and applied rules

  /** The rule cannot be worked out from the request. */
  ghost predicate AsksReview(f: Facts, r: Rule) {
    match r.kind
    case MinimumBillableArea => r.minArea.Some? && !(f.area > 0.0)
    case FixedUnitPrice => r.basePrice.None? || !(f.area > 0.0)
    case AreaThresholdSurcharge => r.threshold.Some? && r.surcharge.Some? && !(f.area > 0.0 && f.basis > 0.0)
    case SizeBasedFormula => IsFormulaPrice(f, r, None)
    case ManualQuote => true
    case _ => false
  }

  /** The rule at position i is listed: it asks for review, or it has something to say. */
  ghost predicate IsListed(f: Facts, rules: seq<Rule>, i: nat)
    requires i < |rules|
  {
    var r := rules[i];
    AsksReview(f, r) ||
    match r.kind
    case MinimumBillableArea => r.minArea.Some? && exists m :: IsAreaAt(f.area, rules, i, m) && m < r.minArea.value
    case FixedUnitPrice => true
    case AreaThresholdSurcharge => r.threshold.Some? && r.surcharge.Some? && f.basis < r.threshold.value
    case SpecialProcessPrice => r.processPrice.Some? && r.keyword != "" && r.keyword in f.mentioned
    case SizeBasedFormula => true
    case _ => false
  }

  lemma SidePriceUnique(pieces: seq<Piece>, side: string, a: Option<real>, b: Option<real>)
    requires IsSidePrice(pieces, side, a) && IsSidePrice(pieces, side, b)
    ensures a == b
  {
    if a.Some? && b.Some? {
      var i :| 0 <= i < |pieces| && IsLastPrice(pieces, side, i) && a == pieces[i].price;
      var k :| 0 <= k < |pieces| && IsLastPrice(pieces, side, k) && b == pieces[k].price;
      assert !(i < k) && !(k < i);
    }
  }

  lemma ReviewIs(f: Facts, r: Rule)
    ensures NeedsReview(f, r) <==> AsksReview(f, r)
  {
    if r.kind.SizeBasedFormula? {
      FormulaPriceIs(f, r);
      if r.formula.PrintSide? && AsksReview(f, r) {
        SidePriceUnique(r.formula.pieces, SideOf(f), None, FormulaPrice(f, r));
      }
    }
  }

  lemma AreaUnique(area: real, rules: seq<Rule>, i: nat, a: real, b: real)
    requires i <= |rules| && IsAreaAt(area, rules, i, a) && IsAreaAt(area, rules, i, b)
    ensures a == b
  {
  }

  lemma ListedIs(f: Facts, rules: seq<Rule>, i: nat)
    requires i < |rules|
    ensures Applies(f, rules[..i], rules[i]) <==> IsListed(f, rules, i)
  {
    var r := rules[i];
    ReviewIs(f, r);
    if r.kind.MinimumBillableArea? && r.minArea.Some? && f.area > 0.0 {
      BillableAt(f.area, rules, i);
      if m :| IsAreaAt(f.area, rules, i, m) && m < r.minArea.value {
        AreaUnique(f.area, rules, i, m, Billable(f.area, rules[..i]));
      }
    }
  }

  /** The rules listed at positions below n, in order. */
  ghost function Listed(f: Facts, rules: seq<Rule>, n: nat): seq<Rule>
    requires n <= |rules|
  {
    if n == 0 then []
    else if IsListed(f, rules, n - 1) then Listed(f, rules, n - 1) + [rules[n - 1]]
    else Listed(f, rules, n - 1)
  }

  lemma {:induction false} AppliedAreListed(f: Facts, rules: seq<Rule>, n: nat)
    requires n <= |rules|
    ensures AppliedRules(f, rules[..n]) == Listed(f, rules, n)
  {
    if n > 0 {
      assert rules[..n][..n - 1] == rules[..n - 1];
      AppliedAreListed(f, rules, n - 1);
      ListedIs(f, rules, n - 1);
    }
  }

  lemma ListedInFull(f: Facts, rules: seq<Rule>)
    ensures AppliedRules(f, rules) == Listed(f, rules, |rules|)
  {
    AppliedAreListed(f, rules, |rules|);
    assert rules[..|rules|] == rules;
  }

  // ---------------------------------------------------------------- the answer

  /** The thousandth nearest to x, halves away from zero. */
  ghost predicate IsRounded(x: real, y: real) {
    && (y * 1000.0).Floor as real == y * 1000.0
    && (if x >= 0.0 then y - 0.0005 <= x < y + 0.0005 else y - 0.0005 < x <= y + 0.0005)
  }

  lemma RoundedIs(x: real)
    ensures IsRounded(x, Rounded(x))
  {
    var n: int := if x >= 0.0 then (x * 1000.0 + 0.5).Floor else -((-x * 1000.0 + 0.5).Floor);
    assert Rounded(x) == n as real / 1000.0;
    assert Rounded(x) * 1000.0 == n as real;
  }

  /** The response to the request over sorted rules: what was first, what is listed, how much, and what to review. */
  ghost predicate Answers(req: Request, rules: seq<Rule>, resp: Response, f: Facts, q: int, units: seq<real>) {
    && Read(req, f, q)
    && AreUnits(f, rules, units)
    && resp.matched == (if rules == [] then None else Some(rules[0]))
    && resp.applied == Listed(f, rules, |rules|)
    && (resp.manualReview <==> Listed(f, rules, |rules|) == [] || exists r :: r in rules && AsksReview(f, r))
    && (resp.estimate.Some? <==>
          Listed(f, rules, |rules|) != []
          && ((forall r :: r in rules ==> !AsksReview(f, r)) || Amount(q, units) > 0.0))
    && (resp.estimate.Some? ==> IsRounded(Amount(q, units), resp.estimate.value))
  }

  lemma ReviewsAre(f: Facts, rules: seq<Rule>)
    ensures AnyReview(f, rules) <==> exists r :: r in rules && AsksReview(f, r)
  {
    forall i | 0 <= i < |rules| ensures NeedsReview(f, rules[i]) <==> AsksReview(f, rules[i]) {
      ReviewIs(f, rules[i]);
    }
    if AnyReview(f, rules) {
      var i :| 0 <= i < |rules| && NeedsReview(f, rules[i]);
      assert rules[i] in rules && AsksReview(f, rules[i]);
    }
    if r :| r in rules && AsksReview(f, r) {
      var i :| 0 <= i < |rules| && rules[i] == r;
      assert NeedsReview(f, rules[i]);
    }
  }

  /** An answer put together from its parts. */
  lemma AnswerFromParts(
      req: Request, rules: seq<Rule>, f: Facts, q: int, units: seq<real>, applied: seq<Rule>, review: bool, raw: real)
    requires Read(req, f, q) && AreUnits(f, rules, units) && raw == Amount(q, units)
    requires applied == Listed(f, rules, |rules|) && (review <==> exists r :: r in rules && AsksReview(f, r))
    ensures Answers(req, rules, Answer(rules, applied, review, raw), f, q, units)
  {
    RoundedIs(raw);
  }

  lemma PartsAnswer(req: Request, rules: seq<Rule>, f: Facts, q: int)
    returns (applied: seq<Rule>, review: bool, raw: real)
    requires Read(req, f, q)
    ensures applied == AppliedRules(f, rules) && review == AnyReview(f, rules) && raw == Raw(f, q, rules)
    ensures Answers(req, rules, Answer(rules, applied, review, raw), f, q, Units(f, rules))
  {
    EstimateIsSum(f, q, rules);
    ListedInFull(f, rules);
    ReviewsAre(f, rules);
    applied, review, raw := AppliedRules(f, rules), AnyReview(f, rules), Raw(f, q, rules);
    AnswerFromParts(req, rules, f, q, Units(f, rules), applied, review, raw);
  }

  lemma QuoteAnswers(req: Request, rules: seq<Rule>)
    ensures Answers(req, rules, Quote(req, rules), FactsOf(req), QuantityOf(req.quantity), Units(FactsOf(req), rules))
  {
    RequestIsRead(req);
    var applied, review, raw := PartsAnswer(req, rules, FactsOf(req), QuantityOf(req.quantity));
  }

  /** The rules of the list without its nil entries, by priority, falling version and id, ties in list order. */
  ghost predicate IsSortOf(rules: seq<Option<Rule>>, sorted: seq<Rule>) {
    && multiset(sorted) == multiset(Present(rules))
    && (forall i, j :: 0 <= i < j < |sorted| ==> InOrder(sorted[i], sorted[j]))
    && forall k :: Tied(sorted, k) == Tied(Present(rules), k)
  }

  /** The engine's answer, from request and rules to response. */
  method Preview(req: Request, rules: seq<Option<Rule>>) returns (resp: Response)
    ensures exists sorted, f, q, units :: IsSortOf(rules, sorted) && Answers(req, sorted, resp, f, q, units)
  {
    resp := PreviewCostRules(req, rules);
    ghost var sorted := SortRules(Present(rules));
    SortSorts(Present(rules));
    SortedMeans(sorted);
    forall k ensures Tied(sorted, k) == Tied(Present(rules), k) {
      SortStable(Present(rules), k);
    }
    assert IsSortOf(rules, sorted);
    QuoteAnswers(req, sorted);
  }
}
