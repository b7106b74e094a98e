/**
 * The cost rule engine of service/cost_prefill.go: rules sorted by priority, then folded over a
 * billable area, a tax multiplier, an estimate and a manual-review flag. Amounts are reals.
 */
module CostPreview {
  import opened Prelude

  datatype RuleKind =
    | MinimumBillableArea
    | FixedUnitPrice
    | AreaThresholdSurcharge
    | SpecialProcessPrice
    | SizeBasedFormula
    | ManualQuote
    | OtherKind(name: string)

  /** One `side=price` piece of a print-side formula; no price when it does not parse. */
  datatype Piece = Piece(side: string, price: Option<real>)
  datatype Formula = SizeLookup | PrintSide(pieces: seq<Piece>) | OtherFormula(text: string)

  /** A cost rule; `keyword` is trimmed, and `copper` says its category or name mentions copper paper. */
  datatype Rule = Rule(
    id: int, version: int, priority: int, kind: RuleKind,
    basePrice: Option<real>, tax: Option<real>, minArea: Option<real>,
    threshold: Option<real>, surcharge: Option<real>,
    keyword: string, processPrice: Option<real>,
    formula: Formula, copper: bool)

  datatype Size = Size(width: Option<real>, height: Option<real>, area: Option<real>)

  /** A preview request: its own sizes, those read from its text, and what its text mentions. */
  datatype Request = Request(
    given: Size, fromText: Size, quantity: Option<int>,
    boxLayout: bool, doubleSided: bool, copper: bool, mentioned: set<string>)

  datatype Response = Response(
    matched: Option<Rule>, applied: seq<Rule>, estimate: Option<real>, manualReview: bool)

  // ---------------------------------------------------------------- reading the request

  /** The sizes used: text fills what is missing, unless an area or both sides were given. */
  function SizeOf(req: Request): Size {
    var g, t := req.given, req.fromText;
    if g.area.Some? || (g.width.Some? && g.height.Some?) then g
    else
      Size(if g.width.None? then t.width else g.width,
           if g.height.None? then t.height else g.height,
           if g.area.None? then t.area else g.area)
  }

  predicate HasSides(z: Size) {
    z.width.Some? && z.height.Some? && z.width.value > 0.0 && z.height.value > 0.0
  }

  function AreaOf(z: Size): (a: real)
    ensures a >= 0.0
    ensures a == 0.0 <==> !HasSides(z) && (z.area.None? || z.area.value <= 0.0)
  {
    if z.area.Some? && z.area.value > 0.0 then z.area.value
    else if HasSides(z) then z.width.value * z.height.value
    else 0.0
  }

  /** What surcharge thresholds are compared with; fixed before any rule runs. */
  function BasisOf(req: Request): real {
    var z := SizeOf(req);
    if req.boxLayout then AreaOf(z)
    else if HasSides(z) then z.width.value * z.height.value
    else AreaOf(z)
  }

  function QuantityOf(quantity: Option<int>): (q: int)
    ensures q >= 1
    ensures quantity.Some? && quantity.value >= 1 ==> q == quantity.value
  {
    if quantity.None? || quantity.value <= 0 then 1 else quantity.value
  }

  /** All of a request but the quantity, as the rules read it. */
  datatype Facts = Facts(area: real, basis: real, doubleSided: bool, copper: bool, mentioned: set<string>)

  function FactsOf(req: Request): Facts {
    Facts(AreaOf(SizeOf(req)), BasisOf(req), req.doubleSided, req.copper, req.mentioned)
  }

  // ---------------------------------------------------------------- sorting

  /** Priority ascending, then version descending, then id ascending. */
  predicate Less(a: Rule, b: Rule) {
    if a.priority != b.priority then a.priority < b.priority
    else if a.version != b.version then a.version > b.version
    else a.id < b.id
  }

  ghost predicate Sorted(rules: seq<Rule>) {
    forall i, j :: 0 <= i < j < |rules| ==> !Less(rules[j], rules[i])
  }

  ghost predicate DistinctIds(rules: seq<Rule>) {
    forall i, j :: 0 <= i < j < |rules| ==> rules[i].id != rules[j].id
  }

  function Insert(r: Rule, rules: seq<Rule>): seq<Rule> {
    if rules == [] || !Less(rules[0], r) then [r] + rules
    else [rules[0]] + Insert(r, rules[1..])
  }

  /** The stable sort: rules that compare equal keep their order. */
  function SortRules(rules: seq<Rule>): seq<Rule> {
    if rules == [] then [] else Insert(rules[0], SortRules(rules[1..]))
  }

  // ---------------------------------------------------------------- the closed form

  /** The input area or the largest minimum area among `rules`; nothing lifts a missing area. */
  function Billable(area: real, rules: seq<Rule>): (b: real)
    ensures b >= area && (area <= 0.0 ==> b == area)
  {
    if rules == [] || area <= 0.0 then area
    else
      var b := Billable(area, rules[..|rules| - 1]);
      var r := Last(rules);
      if r.kind.MinimumBillableArea? && r.minArea.Some? then Max(b, r.minArea.value) else b
  }

  function TaxOrOne(tax: Option<real>): (t: real)
    ensures t > 0.0
  {
    if tax.None? || tax.value <= 0.0 then 1.0 else tax.value
  }

  /** The multiplier of the nearest fixed price before, or one. */
  function FixedTax(area: real, rules: seq<Rule>): real {
    if rules == [] then 1.0
    else if Last(rules).kind.FixedUnitPrice? && Last(rules).basePrice.Some? && area > 0.0 then TaxOrOne(Last(rules).tax)
    else FixedTax(area, rules[..|rules| - 1])
  }

  /** The price the last parsable piece gives a side. */
  function SidePrice(pieces: seq<Piece>, side: string): Option<real> {
    if pieces == [] then None
    else if Last(pieces).side == side && Last(pieces).price.Some? then Last(pieces).price
    else SidePrice(pieces[..|pieces| - 1], side)
  }

  function SideOf(f: Facts): string {
    if f.doubleSided then "double" else "single"
  }

  /** The price of one piece by formula; nothing when the formula cannot be executed. */
  function FormulaPrice(f: Facts, r: Rule): Option<real> {
    match r.formula
    case SizeLookup => if r.copper || f.copper then Some(if f.doubleSided then 0.6 else 0.5) else None
    case PrintSide(pieces) => SidePrice(pieces, SideOf(f))
    case OtherFormula(_) => None
  }

  /** A price per unit of area, with tax. */
  function Priced(price: real, area: real, tax: real): real {
    price * area * tax
  }

  /** What rule `r` adds per piece at a billable area, with the tax of the nearest fixed price before it. */
  function UnitFor(f: Facts, area: real, fixedTax: real, r: Rule): real {
    match r.kind
    case FixedUnitPrice =>
      if r.basePrice.Some? && f.area > 0.0 then Priced(r.basePrice.value, area, TaxOrOne(r.tax)) else 0.0
    case AreaThresholdSurcharge =>
      if r.threshold.Some? && r.surcharge.Some? && f.area > 0.0 && 0.0 < f.basis < r.threshold.value
      then Priced(r.surcharge.value, area, if r.tax.Some? && r.tax.value > 0.0 then r.tax.value else fixedTax)
      else 0.0
    case SpecialProcessPrice => if ProcessApplies(f, r) then r.processPrice.value else 0.0
    case SizeBasedFormula => if FormulaPrice(f, r).Some? then FormulaPrice(f, r).value else 0.0
    case _ => 0.0
  }

  /** What rule `r` adds per piece when it comes after the rules `before`. */
  function UnitCharge(f: Facts, before: seq<Rule>, r: Rule): real {
    UnitFor(f, Billable(f.area, before), FixedTax(f.area, before), r)
  }

  predicate ProcessApplies(f: Facts, r: Rule) {
    r.processPrice.Some? && r.keyword != "" && r.keyword in f.mentioned
  }

  predicate NeedsReview(f: Facts, r: Rule) {
    match r.kind
    case MinimumBillableArea => r.minArea.Some? && f.area <= 0.0
    case FixedUnitPrice => r.basePrice.None? || f.area <= 0.0
    case AreaThresholdSurcharge => r.threshold.Some? && r.surcharge.Some? && (f.area <= 0.0 || f.basis <= 0.0)
    case SpecialProcessPrice => false
    case SizeBasedFormula => FormulaPrice(f, r).None?
    case ManualQuote => true
    case OtherKind(_) => false
  }

  /** Whether rule `r` is listed as applied when it comes after the rules `before`. */
  predicate Applies(f: Facts, before: seq<Rule>, r: Rule) {
    || NeedsReview(f, r)
    || match r.kind
       case MinimumBillableArea => r.minArea.Some? && Billable(f.area, before) < r.minArea.value
       case FixedUnitPrice => true
       case AreaThresholdSurcharge => r.threshold.Some? && r.surcharge.Some? && f.basis < r.threshold.value
       case SpecialProcessPrice => ProcessApplies(f, r)
       case SizeBasedFormula => true
       case _ => false
  }

  function AppliedRules(f: Facts, rules: seq<Rule>): seq<Rule> {
    if rules == [] then []
    else
      var init := rules[..|rules| - 1];
      AppliedRules(f, init) + if Applies(f, init, Last(rules)) then [Last(rules)] else []
  }

  predicate AnyReview(f: Facts, rules: seq<Rule>) {
    exists i :: 0 <= i < |rules| && NeedsReview(f, rules[i])
  }

  function Charge(f: Facts, q: int, before: seq<Rule>, r: Rule): real {
    q as real * UnitCharge(f, before, r)
  }

  /** The estimate before rounding: what each rule adds, after the rules before it. */
  function Raw(f: Facts, q: int, rules: seq<Rule>): real {
    if rules == [] then 0.0
    else Raw(f, q, rules[..|rules| - 1]) + Charge(f, q, rules[..|rules| - 1], Last(rules))
  }

  /** Thousandths, halves away from zero. */
  function Rounded(x: real): real {
    if x >= 0.0 then (x * 1000.0 + 0.5).Floor as real / 1000.0
    else -((-x * 1000.0 + 0.5).Floor as real / 1000.0)
  }

  /** The response, from what the loop leaves. */
  function Answer(rules: seq<Rule>, applied: seq<Rule>, review: bool, raw: real): Response {
    Response(
      if rules == [] then None else Some(rules[0]),
      applied,
      if applied != [] && (!review || raw > 0.0) then Some(Rounded(raw)) else None,
      review || applied == [])
  }

  /** The response to a request over rules already sorted. */
  function Quote(req: Request, rules: seq<Rule>): Response {
    var f, q := FactsOf(req), QuantityOf(req.quantity);
    Answer(rules, AppliedRules(f, rules), AnyReview(f, rules), Raw(f, q, rules))
  }

  // ---------------------------------------------------------------- the engine

  /** The fixed charge, multiplied up in the engine's own order. */
  method FixedCharge(r: Rule, area: real, q: int, ghost f: Facts, ghost before: seq<Rule>)
    returns (charge: Option<real>)
    requires area == Billable(f.area, before) && r.kind.FixedUnitPrice?
    ensures charge.Some? <==> r.basePrice.Some? && area > 0.0
    ensures charge.Some? ==> charge.value == Charge(f, q, before, r)
  {
    if r.basePrice.None? || area <= 0.0 {
      return None;
    }
    var total := r.basePrice.value * area * (q as real);
    if r.tax.Some? && r.tax.value > 0.0 {
      total := total * r.tax.value;
    }
    charge := Some(total);
  }

  method SurchargeFor(
      r: Rule, area: real, q: int, hasFixed: bool, fixedTax: real, ghost f: Facts, ghost before: seq<Rule>)
    returns (extra: real)
    requires area == Billable(f.area, before) && area > 0.0
    requires (if hasFixed then fixedTax else 1.0) == FixedTax(f.area, before)
    requires r.kind.AreaThresholdSurcharge? && r.threshold.Some? && r.surcharge.Some?
    requires 0.0 < f.basis < r.threshold.value
    ensures extra == Charge(f, q, before, r)
  {
    extra := r.surcharge.value * area * (q as real);
    if r.tax.Some? && r.tax.value > 0.0 {
      extra := extra * r.tax.value;
    } else if hasFixed {
      extra := extra * fixedTax;
    }
  }

  method ParsePrices(pieces: seq<Piece>) returns (prices: map<string, real>)
    ensures forall side :: side in prices <==> SidePrice(pieces, side).Some?
    ensures forall side :: side in prices ==> SidePrice(pieces, side) == Some(prices[side])
  {
    prices := map[];
    for k := 0 to |pieces|
      invariant forall side :: side in prices <==> SidePrice(pieces[..k], side).Some?
      invariant forall side :: side in prices ==> SidePrice(pieces[..k], side) == Some(prices[side])
    {
      assert pieces[..k + 1][..k] == pieces[..k];
      if pieces[k].price.Some? {
        prices := prices[pieces[k].side := pieces[k].price.value];
      }
    }
    assert pieces[..|pieces|] == pieces;
  }

  /** The fallback to the single-sided price is looked up in a scope of its own and never rescues the call. */
  method FormulaCharge(f: Facts, r: Rule, q: int, ghost before: seq<Rule>) returns (charge: Option<real>)
    requires r.kind.SizeBasedFormula?
    ensures charge.Some? <==> FormulaPrice(f, r).Some?
    ensures charge.Some? ==> charge.value == Charge(f, q, before, r)
  {
    if r.formula.SizeLookup? && (r.copper || f.copper) {
      var price := 0.5;
      if f.doubleSided {
        price := 0.6;
      }
      return Some(price * (q as real));
    }
    if r.formula.PrintSide? {
      var side := SideOf(f);
      var prices := ParsePrices(r.formula.pieces);
      var ok := side in prices;
      var price := if ok then prices[side] else 0.0;
      if !ok && "single" in prices {
        price := prices["single"];
      }
      if !ok {
        return None;
      }
      return Some(price * (q as real));
    }
    return None;
  }

  /** The variables of the engine's loop. */
  datatype Tally = Tally(area: real, review: bool, estimated: real, fixedTax: real, hasFixed: bool, applied: seq<Rule>)

  /** The loop variables hold what the closed form says of the rules seen so far. */
  ghost predicate Tallies(t: Tally, f: Facts, q: int, rules: seq<Rule>) {
    && t.area == Billable(f.area, rules)
    && t.review == AnyReview(f, rules)
    && t.estimated == Raw(f, q, rules)
    && (if t.hasFixed then t.fixedTax else 1.0) == FixedTax(f.area, rules)
    && t.applied == AppliedRules(f, rules)
  }

  /** One turn of the loop on a minimum billable area. */
  method ApplyMinimum(f: Facts, ghost q: int, r: Rule, t: Tally, ghost before: seq<Rule>) returns (u: Tally)
    requires Tallies(t, f, q, before) && r.kind.MinimumBillableArea?
    ensures Tallies(u, f, q, before + [r])
  {
    u := t;
    Unfold(f, q, before, r);
    if r.minArea.None? {
      return;
    }
    if u.area <= 0.0 {
      u := u.(review := true, applied := u.applied + [r]);
    } else if u.area < r.minArea.value {
      u := u.(area := r.minArea.value, applied := u.applied + [r]);
    }
  }

  /** One turn of the loop on a fixed unit price. */
  method ApplyFixed(f: Facts, q: int, r: Rule, t: Tally, ghost before: seq<Rule>) returns (u: Tally)
    requires Tallies(t, f, q, before) && r.kind.FixedUnitPrice?
    ensures Tallies(u, f, q, before + [r])
  {
    u := t;
    Unfold(f, q, before, r);
    var charge := FixedCharge(r, u.area, q, f, before);
    if charge.None? {
      u := u.(review := true, applied := u.applied + [r]);
      return;
    }
    u := u.(estimated := u.estimated + charge.value, hasFixed := true, fixedTax := TaxOrOne(r.tax),
            applied := u.applied + [r]);
  }

  /** One turn of the loop on an area threshold surcharge. */
  method ApplySurcharge(f: Facts, q: int, r: Rule, t: Tally, ghost before: seq<Rule>) returns (u: Tally)
    requires Tallies(t, f, q, before)
    requires r.kind.AreaThresholdSurcharge?
    ensures Tallies(u, f, q, before + [r])
  {
    u := t;
    Unfold(f, q, before, r);
    if r.threshold.None? || r.surcharge.None? {
      return;
    }
    if u.area <= 0.0 || f.basis <= 0.0 {
      u := u.(review := true, applied := u.applied + [r]);
    } else if f.basis < r.threshold.value {
      var extra := SurchargeFor(r, u.area, q, u.hasFixed, u.fixedTax, f, before);
      u := u.(estimated := u.estimated + extra, applied := u.applied + [r]);
    }
  }

  /** One turn of the loop on a special process. */
  method ApplyProcess(f: Facts, q: int, r: Rule, t: Tally, ghost before: seq<Rule>) returns (u: Tally)
    requires Tallies(t, f, q, before) && r.kind.SpecialProcessPrice?
    ensures Tallies(u, f, q, before + [r])
  {
    u := t;
    Unfold(f, q, before, r);
    if r.processPrice.Some? && r.keyword != "" && r.keyword in f.mentioned {
      u := u.(estimated := u.estimated + r.processPrice.value * (q as real), applied := u.applied + [r]);
    }
  }

  /** One turn of the loop on a size formula. */
  method ApplyFormula(f: Facts, q: int, r: Rule, t: Tally, ghost before: seq<Rule>) returns (u: Tally)
    requires Tallies(t, f, q, before) && r.kind.SizeBasedFormula?
    ensures Tallies(u, f, q, before + [r])
  {
    u := t;
    Unfold(f, q, before, r);
    var charge := FormulaCharge(f, r, q, before);
    if charge.Some? {
      u := u.(estimated := u.estimated + charge.value, applied := u.applied + [r]);
    } else {
      u := u.(review := true, applied := u.applied + [r]);
    }
  }

  /** One turn of the loop on a manual quote or an unknown kind of rule. */
  method ApplyUnpriced(f: Facts, ghost q: int, r: Rule, t: Tally, ghost before: seq<Rule>) returns (u: Tally)
    requires Tallies(t, f, q, before) && (r.kind.ManualQuote? || r.kind.OtherKind?)
    ensures Tallies(u, f, q, before + [r])
  {
    u := t;
    Unfold(f, q, before, r);
    if r.kind.ManualQuote? {
      u := u.(review := true, applied := u.applied + [r]);
    }
  }

  method PreviewCostRules(req: Request, rules: seq<Option<Rule>>) returns (resp: Response)
    ensures resp == Quote(req, SortRules(Present(rules)))
  {
    var kept: seq<Rule> := [];
    for k := 0 to |rules|
      invariant kept == Present(rules[..k])
    {
      assert rules[..k + 1][..k] == rules[..k];
      if rules[k].Some? {
        kept := kept + [rules[k].value];
      }
    }
    assert rules[..|rules|] == rules;
    var sorted := SortRules(kept);

    var f := FactsOf(req);
    var q := QuantityOf(req.quantity);
    var matched: Option<Rule> := None;
    var t := Tally(f.area, false, 0.0, 1.0, false, []);
    for k := 0 to |sorted|
      invariant Tallies(t, f, q, sorted[..k])
      invariant matched == if k == 0 then None else Some(sorted[0])
    {
      var r := sorted[k];
      assert sorted[..k] + [r] == sorted[..k + 1];
      if matched.None? {
        matched := Some(r);
      }
      match r.kind
      case MinimumBillableArea => t := ApplyMinimum(f, q, r, t, sorted[..k]);
      case FixedUnitPrice => t := ApplyFixed(f, q, r, t, sorted[..k]);
      case AreaThresholdSurcharge => t := ApplySurcharge(f, q, r, t, sorted[..k]);
      case SpecialProcessPrice => t := ApplyProcess(f, q, r, t, sorted[..k]);
      case SizeBasedFormula => t := ApplyFormula(f, q, r, t, sorted[..k]);
      case _ => t := ApplyUnpriced(f, q, r, t, sorted[..k]);
    }
    assert sorted[..|sorted|] == sorted;

    var estimate: Option<real> := None;
    if |t.applied| > 0 && (!t.review || t.estimated > 0.0) {
      estimate := Some(Rounded(t.estimated));
    }
    resp := Response(matched, t.applied, estimate, t.review || |t.applied| == 0);
  }

  /** What one more rule adds to each part of the closed form. */
  lemma Unfold(f: Facts, q: int, before: seq<Rule>, r: Rule)
    ensures && Billable(f.area, before + [r]) ==
                 (if f.area > 0.0 && r.kind.MinimumBillableArea? && r.minArea.Some?
                  then Max(Billable(f.area, before), r.minArea.value) else Billable(f.area, before))
            && FixedTax(f.area, before + [r]) ==
                 (if r.kind.FixedUnitPrice? && r.basePrice.Some? && f.area > 0.0
                  then TaxOrOne(r.tax) else FixedTax(f.area, before))
    ensures Raw(f, q, before + [r]) == Raw(f, q, before) + Charge(f, q, before, r)
    ensures AppliedRules(f, before + [r]) == AppliedRules(f, before) + if Applies(f, before, r) then [r] else []
    ensures AnyReview(f, before + [r]) <==> AnyReview(f, before) || NeedsReview(f, r)
  {
    assert (before + [r])[..|before|] == before && Last(before + [r]) == r;
    ReviewAppend(f, before, r);
  }

  lemma ReviewAppend(f: Facts, before: seq<Rule>, r: Rule)
    ensures AnyReview(f, before + [r]) <==> AnyReview(f, before) || NeedsReview(f, r)
  {
    var all := before + [r];
    if AnyReview(f, before) {
      var i :| 0 <= i < |before| && NeedsReview(f, before[i]);
      assert NeedsReview(f, all[i]);
    }
    assert all[|before|] == r;
  }
}
