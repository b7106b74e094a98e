/** What the cost engine's answers obey: order independence, proportionality and rounding. */
module CostLaws {
  import opened Prelude
  import opened CostPreview

  // ---------------------------------------------------------------- sorting

  lemma {:induction false} InsertPermutes(r: Rule, rules: seq<Rule>)
    ensures multiset(Insert(r, rules)) == multiset(rules) + multiset{r}
  {
    if rules != [] && Less(rules[0], r) {
      InsertPermutes(r, rules[1..]);
      assert rules == [rules[0]] + rules[1..];
    }
  }

  lemma {:induction false} InsertSorts(r: Rule, rules: seq<Rule>)
    requires Sorted(rules)
    ensures Sorted(Insert(r, rules))
  {
    if rules == [] {
    } else if !Less(rules[0], r) {
      forall j | 0 <= j < |rules| ensures !Less(rules[j], r) {
        assert j > 0 ==> !Less(rules[j], rules[0]);
      }
    } else {
      var tail := Insert(r, rules[1..]);
      InsertSorts(r, rules[1..]);
      InsertPermutes(r, rules[1..]);
      forall j | 0 <= j < |tail| ensures !Less(tail[j], rules[0]) {
        assert tail[j] in multiset(tail);
        assert tail[j] == r || tail[j] in rules[1..];
      }
    }
  }

  lemma {:induction false} SortSorts(rules: seq<Rule>)
    ensures Sorted(SortRules(rules)) && multiset(SortRules(rules)) == multiset(rules)
  {
    if rules != [] {
      SortSorts(rules[1..]);
      InsertSorts(rules[0], SortRules(rules[1..]));
      InsertPermutes(rules[0], SortRules(rules[1..]));
      assert rules == [rules[0]] + rules[1..];
    }
  }

  /** What sorted means: priorities rise; among equal ones versions fall; among equal ones ids rise. */
  lemma SortedMeans(rules: seq<Rule>)
    ensures Sorted(rules) <==> forall i, j :: 0 <= i < j < |rules| ==> InOrder(rules[i], rules[j])
  {
    assert forall a, b :: Less(b, a) <==> !InOrder(a, b);
  }

  predicate InOrder(a: Rule, b: Rule) {
    || a.priority < b.priority
    || (a.priority == b.priority && a.version > b.version)
    || (a.priority == b.priority && a.version == b.version && a.id <= b.id)
  }

  /** The rules that tie with `k` in the engine's order, in list order. */
  function Tied(rules: seq<Rule>, k: Rule): seq<Rule> {
    if rules == [] then []
    else if !Less(rules[0], k) && !Less(k, rules[0]) then [rules[0]] + Tied(rules[1..], k)
    else Tied(rules[1..], k)
  }

  lemma {:induction false} InsertStable(r: Rule, rules: seq<Rule>, k: Rule)
    ensures Tied(Insert(r, rules), k) == Tied([r] + rules, k)
  {
    assert ([r] + rules)[1..] == rules;
    if rules != [] && Less(rules[0], r) {
      InsertStable(r, rules[1..], k);
      assert ([r] + rules[1..])[1..] == rules[1..];
      assert Insert(r, rules)[1..] == Insert(r, rules[1..]);
    }
  }

  /** The sort is stable: ties keep their order. */
  lemma {:induction false} SortStable(rules: seq<Rule>, k: Rule)
    ensures Tied(SortRules(rules), k) == Tied(rules, k)
  {
    if rules != [] {
      SortStable(rules[1..], k);
      InsertStable(rules[0], SortRules(rules[1..]), k);
      assert ([rules[0]] + SortRules(rules[1..]))[1..] == SortRules(rules[1..]);
    }
  }

  lemma Sides(xs: seq<Rule>, ys: seq<Rule>)
    requires Sorted(xs) && multiset(xs) == multiset(ys) && xs != [] && ys != []
    ensures !Less(ys[0], xs[0])
  {
    assert ys[0] in multiset(xs);
    var i :| 0 <= i < |xs| && xs[i] == ys[0];
  }

  lemma SameHead(xs: seq<Rule>, ys: seq<Rule>)
    requires Sorted(xs) && Sorted(ys) && multiset(xs) == multiset(ys) && DistinctIds(xs) && xs != [] && ys != []
    ensures xs[0] == ys[0]
  {
    Sides(xs, ys);
    Sides(ys, xs);
    assert ys[0] in multiset(xs);
    assert xs[0].id == ys[0].id;
  }

  lemma TailKeeps(xs: seq<Rule>)
    requires xs != []
    ensures multiset(xs[1..]) == multiset(xs) - multiset{xs[0]}
    ensures Sorted(xs) ==> Sorted(xs[1..])
    ensures DistinctIds(xs) ==> DistinctIds(xs[1..])
  {
    assert xs == [xs[0]] + xs[1..];
  }

  lemma SameSize(xs: seq<Rule>, ys: seq<Rule>)
    requires multiset(xs) == multiset(ys)
    ensures |xs| == |ys|
  {
    assert |xs| == |multiset(xs)| && |ys| == |multiset(ys)|;
  }

  /** Rules with distinct ids have one sorted order. */
  lemma {:induction false} SortedUnique(xs: seq<Rule>, ys: seq<Rule>)
    requires Sorted(xs) && Sorted(ys) && multiset(xs) == multiset(ys) && DistinctIds(xs)
    ensures xs == ys
    decreases |xs|
  {
    SameSize(xs, ys);
    if xs != [] {
      SameHead(xs, ys);
      TailKeeps(xs);
      TailKeeps(ys);
      SortedUnique(xs[1..], ys[1..]);
      assert xs == [xs[0]] + xs[1..] && ys == [ys[0]] + ys[1..];
    }
  }

  lemma {:induction false} DistinctPermuted(xs: seq<Rule>, ys: seq<Rule>)
    requires multiset(xs) == multiset(ys) && DistinctIds(xs)
    ensures DistinctIds(ys)
  {
    forall i, j | 0 <= i < j < |ys| ensures ys[i].id != ys[j].id {
      if ys[i].id == ys[j].id {
        assert ys[i] in multiset(xs) && ys[j] in multiset(xs);
        assert ys[i] == ys[j];
        assert ys == ys[..j] + [ys[j]] + ys[j + 1..];
        assert ys[i] in ys[..j];
        assert multiset(ys)[ys[i]] >= 2;
        SingleCount(xs, ys[i]);
      }
    }
  }

  lemma {:induction false} SingleCount(xs: seq<Rule>, r: Rule)
    requires DistinctIds(xs)
    ensures multiset(xs)[r] <= 1
  {
    if r in xs {
      var i :| 0 <= i < |xs| && xs[i] == r;
      assert xs == xs[..i] + [r] + xs[i + 1..];
      assert r !in xs[..i] && r !in xs[i + 1..];
    }
  }

  /** The preview is the same for every ordering of rules with distinct ids, nil entries anywhere. */
  lemma PreviewOrderIndependent(req: Request, rules: seq<Option<Rule>>, others: seq<Option<Rule>>)
    requires multiset(Present(rules)) == multiset(Present(others)) && DistinctIds(Present(rules))
    ensures Quote(req, SortRules(Present(rules))) == Quote(req, SortRules(Present(others)))
  {
    var xs, ys := SortRules(Present(rules)), SortRules(Present(others));
    SortSorts(Present(rules));
    SortSorts(Present(others));
    DistinctPermuted(Present(rules), xs);
    SortedUnique(xs, ys);
  }

  // ---------------------------------------------------------------- the closed form, by index

  predicate IsMinimum(r: Rule, m: real) {
    r.kind.MinimumBillableArea? && r.minArea == Some(m)
  }

  /**
   * The billable area is the maximum of the input area and the minimum areas sorted before: no
   * smaller than any of them, and equal to one of them.
   */
  lemma {:induction false} BillableIsMaximum(area: real, rules: seq<Rule>)
    requires area > 0.0
    ensures forall i, m :: 0 <= i < |rules| && IsMinimum(rules[i], m) ==> m <= Billable(area, rules)
    ensures Billable(area, rules) == area || exists i :: 0 <= i < |rules| && IsMinimum(rules[i], Billable(area, rules))
  {
    if rules != [] {
      var init, n := rules[..|rules| - 1], |rules| - 1;
      BillableIsMaximum(area, init);
      var b, b' := Billable(area, init), Billable(area, rules);
      forall i, m | 0 <= i < |rules| && IsMinimum(rules[i], m) ensures m <= b' {
        assert i < n ==> IsMinimum(init[i], m);
      }
      if b' != area {
        if b' == b {
          var i :| 0 <= i < |init| && IsMinimum(init[i], b);
          assert IsMinimum(rules[i], b');
        } else {
          assert IsMinimum(rules[n], b');
        }
      }
    }
  }

  predicate IsCharged(r: Rule) {
    r.kind.FixedUnitPrice? && r.basePrice.Some?
  }

  /** The tax a surcharge borrows is that of the last fixed price before it; one when there is none. */
  lemma {:induction false} FixedTaxIsNearest(area: real, rules: seq<Rule>, i: nat)
    requires area > 0.0 && i <= |rules|
    requires forall k :: i <= k < |rules| ==> !IsCharged(rules[k])
    ensures i > 0 && IsCharged(rules[i - 1]) ==> FixedTax(area, rules) == TaxOrOne(rules[i - 1].tax)
    ensures i == 0 ==> FixedTax(area, rules) == 1.0
  {
    if i < |rules| {
      assert !IsCharged(rules[|rules| - 1]);
      FixedTaxIsNearest(area, rules[..|rules| - 1], i);
    }
  }

  /** The maximum of the input area and the minimum areas before position i, said of the list itself. */
  ghost predicate IsAreaAt(area: real, rules: seq<Rule>, i: nat, m: real)
    requires i <= |rules|
  {
    && area <= m && (m == area || exists k :: 0 <= k < i && IsMinimum(rules[k], m))
    && forall k, x :: 0 <= k < i && IsMinimum(rules[k], x) ==> x <= m
  }

  /** The multiplier of the last charged fixed price before position i, one when there is none. */
  ghost predicate IsTaxAt(rules: seq<Rule>, i: nat, t: real)
    requires i <= |rules|
  {
    || (t == 1.0 && forall k :: 0 <= k < i ==> !IsCharged(rules[k]))
    || exists k :: 0 <= k < i && IsLastCharged(rules, k, i) && IsMultiplier(rules[k].tax, t)
  }

  /** A positive tax multiplies by itself, any other by one. */
  predicate IsMultiplier(tax: Option<real>, t: real) {
    if tax.Some? && tax.value > 0.0 then t == tax.value else t == 1.0
  }

  ghost predicate IsLastCharged(rules: seq<Rule>, k: nat, i: nat)
    requires k < i <= |rules|
  {
    IsCharged(rules[k]) && forall l :: k < l < i ==> !IsCharged(rules[l])
  }

  ghost predicate IsFixedUnit(f: Facts, rules: seq<Rule>, i: nat, unit: real)
    requires i < |rules| && rules[i].basePrice.Some?
  {
    exists m, t ::
      && IsAreaAt(f.area, rules, i, m) && IsMultiplier(rules[i].tax, t)
      && unit == Priced(rules[i].basePrice.value, m, t)
  }

  /** A surcharge's own multiplier, or the one it borrows. */
  ghost predicate IsSurchargeTax(rules: seq<Rule>, i: nat, t: real)
    requires i < |rules|
  {
    var own := rules[i].tax;
    if own.Some? && own.value > 0.0 then t == own.value else IsTaxAt(rules, i, t)
  }

  ghost predicate IsSurchargeUnit(f: Facts, rules: seq<Rule>, i: nat, unit: real)
    requires i < |rules| && rules[i].surcharge.Some?
  {
    exists m, t ::
      && IsAreaAt(f.area, rules, i, m) && IsSurchargeTax(rules, i, t)
      && unit == Priced(rules[i].surcharge.value, m, t)
  }

  /** What the rule at position i adds per piece, by position alone. */
  ghost predicate IsUnit(f: Facts, rules: seq<Rule>, i: nat, unit: real)
    requires i < |rules|
  {
    var r := rules[i];
    match r.kind
    case FixedUnitPrice =>
      if r.basePrice.Some? && f.area > 0.0 then IsFixedUnit(f, rules, i, unit) else unit == 0.0
    case AreaThresholdSurcharge =>
      if r.threshold.Some? && r.surcharge.Some? && f.area > 0.0 && 0.0 < f.basis < r.threshold.value
      then IsSurchargeUnit(f, rules, i, unit) else unit == 0.0
    case SpecialProcessPrice =>
      if r.processPrice.Some? && r.keyword != "" && r.keyword in f.mentioned
      then unit == r.processPrice.value else unit == 0.0
    case SizeBasedFormula =>
      exists price :: IsFormulaPrice(f, r, price) && unit == if price.Some? then price.value else 0.0
    case _ => unit == 0.0
  }

  /** Copper paper costs 0.5 a piece, 0.6 on both sides; a print-side formula prices the side asked for. */
  ghost predicate IsFormulaPrice(f: Facts, r: Rule, price: Option<real>) {
    match r.formula
    case SizeLookup =>
      price == if !r.copper && !f.copper then None else if f.doubleSided then Some(0.6) else Some(0.5)
    case PrintSide(pieces) => IsSidePrice(pieces, if f.doubleSided then "double" else "single", price)
    case OtherFormula(_) => price == None
  }

  /** The price of the last piece for the side that parses; none when there is no such piece. */
  ghost predicate IsSidePrice(pieces: seq<Piece>, side: string, price: Option<real>) {
    || (price == None && forall i :: 0 <= i < |pieces| ==> !Prices(pieces[i], side))
    || exists i :: 0 <= i < |pieces| && IsLastPrice(pieces, side, i) && price == pieces[i].price
  }

  ghost predicate IsLastPrice(pieces: seq<Piece>, side: string, i: nat)
    requires i < |pieces|
  {
    Prices(pieces[i], side) && forall k :: i < k < |pieces| ==> !Prices(pieces[k], side)
  }

  predicate Prices(piece: Piece, side: string) {
    piece.side == side && piece.price.Some?
  }

  /** One more piece that prices nothing changes nothing. */
  lemma SidePriceNext(pieces: seq<Piece>, side: string, last: Piece, price: Option<real>)
    requires IsSidePrice(pieces, side, price) && !Prices(last, side)
    ensures IsSidePrice(pieces + [last], side, price)
  {
    var all := pieces + [last];
    if i :| 0 <= i < |pieces| && IsLastPrice(pieces, side, i) && price == pieces[i].price {
      assert IsLastPrice(all, side, i);
    } else {
      assert forall i :: 0 <= i < |all| ==> !Prices(all[i], side);
    }
  }

  lemma {:induction false} SidePriceIs(pieces: seq<Piece>, side: string)
    ensures IsSidePrice(pieces, side, SidePrice(pieces, side))
  {
    if pieces != [] {
      var init, last := pieces[..|pieces| - 1], Last(pieces);
      assert pieces == init + [last];
      if Prices(last, side) {
        assert IsLastPrice(pieces, side, |pieces| - 1);
      } else {
        SidePriceIs(init, side);
        SidePriceNext(init, side, last, SidePrice(init, side));
      }
    }
  }

  lemma FormulaPriceIs(f: Facts, r: Rule)
    ensures IsFormulaPrice(f, r, FormulaPrice(f, r))
  {
    if r.formula.PrintSide? {
      SidePriceIs(r.formula.pieces, SideOf(f));
    }
  }

  function Sum(units: seq<real>): real {
    if units == [] then 0.0 else Sum(units[..|units| - 1]) + Last(units)
  }

  /** So many pieces at these units. */
  function Amount(q: int, units: seq<real>): real {
    q as real * Sum(units)
  }

  function Units(f: Facts, rules: seq<Rule>): seq<real> {
    seq(|rules|, i requires 0 <= i < |rules| => UnitCharge(f, rules[..i], rules[i]))
  }

  lemma BillableAt(area: real, rules: seq<Rule>, i: nat)
    requires i <= |rules| && area > 0.0
    ensures IsAreaAt(area, rules, i, Billable(area, rules[..i]))
  {
    BillableIsMaximum(area, rules[..i]);
    forall k, x | 0 <= k < i && IsMinimum(rules[k], x) ensures x <= Billable(area, rules[..i]) {
      assert IsMinimum(rules[..i][k], x);
    }
  }

  lemma {:induction false} FixedTaxAt(area: real, rules: seq<Rule>, i: nat)
    requires i <= |rules| && area > 0.0
    ensures IsTaxAt(rules, i, FixedTax(area, rules[..i]))
  {
    if i > 0 {
      assert rules[..i][..i - 1] == rules[..i - 1];
      if IsCharged(rules[i - 1]) {
        assert IsLastCharged(rules, i - 1, i);
      } else {
        FixedTaxAt(area, rules, i - 1);
        var t := FixedTax(area, rules[..i - 1]);
        if k :| 0 <= k < i - 1 && IsLastCharged(rules, k, i - 1) && IsMultiplier(rules[k].tax, t) {
          assert IsLastCharged(rules, k, i);
        }
      }
    }
  }

  lemma FixedUnitAt(f: Facts, rules: seq<Rule>, i: nat)
    requires i < |rules| && rules[i].basePrice.Some? && f.area > 0.0
    ensures IsFixedUnit(f, rules, i,
                        Priced(rules[i].basePrice.value, Billable(f.area, rules[..i]), TaxOrOne(rules[i].tax)))
  {
    BillableAt(f.area, rules, i);
    assert IsMultiplier(rules[i].tax, TaxOrOne(rules[i].tax));
  }

  lemma SurchargeUnitAt(f: Facts, rules: seq<Rule>, i: nat, tax: real)
    requires i < |rules| && rules[i].surcharge.Some? && f.area > 0.0
    requires var own := rules[i].tax;
             tax == if own.Some? && own.value > 0.0 then own.value else FixedTax(f.area, rules[..i])
    ensures IsSurchargeUnit(f, rules, i, Priced(rules[i].surcharge.value, Billable(f.area, rules[..i]), tax))
  {
    BillableAt(f.area, rules, i);
    FixedTaxAt(f.area, rules, i);
    assert IsSurchargeTax(rules, i, tax);
  }

  lemma FixedIsUnit(f: Facts, rules: seq<Rule>, i: nat)
    requires i < |rules| && rules[i].kind.FixedUnitPrice?
    ensures IsUnit(f, rules, i, UnitCharge(f, rules[..i], rules[i]))
  {
    if rules[i].basePrice.Some? && f.area > 0.0 {
      FixedUnitAt(f, rules, i);
    }
  }

  /** The surcharge is due: it is complete, the area is known, and the basis is below the threshold. */
  predicate Due(f: Facts, r: Rule) {
    r.threshold.Some? && r.surcharge.Some? && f.area > 0.0 && 0.0 < f.basis < r.threshold.value
  }

  lemma DueCharge(f: Facts, before: seq<Rule>, r: Rule) returns (tax: real)
    requires r.kind.AreaThresholdSurcharge? && Due(f, r)
    ensures tax == if r.tax.Some? && r.tax.value > 0.0 then r.tax.value else FixedTax(f.area, before)
    ensures UnitCharge(f, before, r) == Priced(r.surcharge.value, Billable(f.area, before), tax)
  {
    tax := if r.tax.Some? && r.tax.value > 0.0 then r.tax.value else FixedTax(f.area, before);
  }

  lemma DueIsUnit(f: Facts, rules: seq<Rule>, i: nat, unit: real)
    requires i < |rules| && rules[i].kind.AreaThresholdSurcharge? && Due(f, rules[i])
    requires IsSurchargeUnit(f, rules, i, unit)
    ensures IsUnit(f, rules, i, unit)
  {
  }

  lemma SurchargeIsUnit(f: Facts, rules: seq<Rule>, i: nat)
    requires i < |rules| && rules[i].kind.AreaThresholdSurcharge?
    ensures IsUnit(f, rules, i, UnitCharge(f, rules[..i], rules[i]))
  {
    if Due(f, rules[i]) {
      var tax := DueCharge(f, rules[..i], rules[i]);
      SurchargeUnitAt(f, rules, i, tax);
      DueIsUnit(f, rules, i, UnitCharge(f, rules[..i], rules[i]));
    }
  }

  lemma FlatIsUnit(f: Facts, rules: seq<Rule>, i: nat)
    requires i < |rules| && !rules[i].kind.FixedUnitPrice? && !rules[i].kind.AreaThresholdSurcharge?
    ensures IsUnit(f, rules, i, UnitCharge(f, rules[..i], rules[i]))
  {
    if rules[i].kind.SizeBasedFormula? {
      FormulaPriceIs(f, rules[i]);
    }
  }

  lemma UnitAt(f: Facts, rules: seq<Rule>, i: nat)
    requires i < |rules|
    ensures IsUnit(f, rules, i, UnitCharge(f, rules[..i], rules[i]))
  {
    if rules[i].kind.FixedUnitPrice? {
      FixedIsUnit(f, rules, i);
    } else if rules[i].kind.AreaThresholdSurcharge? {
      SurchargeIsUnit(f, rules, i);
    } else {
      FlatIsUnit(f, rules, i);
    }
  }

  function Charges(f: Facts, q: int, rules: seq<Rule>): seq<real> {
    seq(|rules|, i requires 0 <= i < |rules| => Charge(f, q, rules[..i], rules[i]))
  }

  lemma {:induction false} RawIsSum(f: Facts, q: int, rules: seq<Rule>, n: nat)
    requires n <= |rules|
    ensures Raw(f, q, rules[..n]) == Sum(Charges(f, q, rules)[..n])
  {
    if n > 0 {
      var charges := Charges(f, q, rules);
      assert rules[..n][..n - 1] == rules[..n - 1] && charges[..n][..n - 1] == charges[..n - 1];
      RawIsSum(f, q, rules, n - 1);
    }
  }

  /** Amounts in proportion have sums in proportion. */
  lemma {:induction false} SumScales(q: real, ones: seq<real>, many: seq<real>)
    requires |many| == |ones| && forall i :: 0 <= i < |ones| ==> many[i] == q * ones[i]
    ensures Sum(many) == q * Sum(ones)
    decreases |ones|
  {
    if ones != [] {
      var n := |ones| - 1;
      SumScales(q, ones[..n], many[..n]);
      Distribute(q, Sum(ones[..n]), ones[n], Sum(many[..n]), many[n], Sum(ones), Sum(many));
    }
  }

  ghost predicate AreUnits(f: Facts, rules: seq<Rule>, units: seq<real>) {
    && |units| == |rules|
    && forall i {:trigger IsUnit(f, rules, i, units[i])} :: 0 <= i < |rules| ==> IsUnit(f, rules, i, units[i])
  }

  lemma UnitsAreUnits(f: Facts, rules: seq<Rule>)
    ensures AreUnits(f, rules, Units(f, rules))
  {
    forall i | 0 <= i < |rules| ensures IsUnit(f, rules, i, Units(f, rules)[i]) {
      UnitAt(f, rules, i);
    }
  }

  lemma ChargesScale(f: Facts, q: int, rules: seq<Rule>)
    ensures forall i :: 0 <= i < |rules| ==> Charges(f, q, rules)[i] == q as real * Units(f, rules)[i]
  {
  }

  lemma RawIsWhole(f: Facts, q: int, rules: seq<Rule>)
    ensures Raw(f, q, rules) == Sum(Charges(f, q, rules))
  {
    RawIsSum(f, q, rules, |rules|);
    assert rules[..|rules|] == rules && Charges(f, q, rules)[..|rules|] == Charges(f, q, rules);
  }

  lemma ChargesAmount(f: Facts, q: int, rules: seq<Rule>, ones: seq<real>, many: seq<real>)
    requires ones == Units(f, rules) && many == Charges(f, q, rules)
    ensures Sum(many) == Amount(q, ones)
  {
    ChargesScale(f, q, rules);
    SumScales(q as real, ones, many);
  }

  lemma RawIsAmount(f: Facts, q: int, rules: seq<Rule>)
    ensures Raw(f, q, rules) == Amount(q, Units(f, rules))
  {
    RawIsWhole(f, q, rules);
    ChargesAmount(f, q, rules, Units(f, rules), Charges(f, q, rules));
  }

  /**
   * The unrounded estimate is the quantity times a sum over positions: each area charge uses the
   * maximum of the input area and the minimum areas before it, and each surcharge is taxed by its
   * own multiplier or that of the nearest charged fixed price before it.
   */
  lemma EstimateIsSum(f: Facts, q: int, rules: seq<Rule>)
    ensures AreUnits(f, rules, Units(f, rules)) && Raw(f, q, rules) == Amount(q, Units(f, rules))
  {
    UnitsAreUnits(f, rules);
    RawIsAmount(f, q, rules);
  }

  /**
   * A print-side formula runs exactly when it prices the side asked for: a single-sided price
   * never stands in for a missing double-sided one, although the engine looks it up.
   */
  lemma SingleNeverStandsIn(f: Facts, q: int, r: Rule, before: seq<Rule>)
    requires r.kind.SizeBasedFormula? && r.formula.PrintSide?
    ensures NeedsReview(f, r) <==> SidePrice(r.formula.pieces, SideOf(f)).None?
    ensures NeedsReview(f, r) ==> Charge(f, q, before, r) == 0.0 && Applies(f, before, r)
  {
    assert NeedsReview(f, r) ==> UnitCharge(f, before, r) == 0.0;
  }

  predicate Priceless(f: Facts, r: Rule) {
    r.kind.SizeBasedFormula? && FormulaPrice(f, r).None?
  }

  /** A rule without a price moves neither the area nor the tax of the rules after it. */
  lemma {:induction false} StateUnmoved(f: Facts, a: seq<Rule>, r: Rule, b: seq<Rule>)
    requires Priceless(f, r)
    ensures Billable(f.area, a + [r] + b) == Billable(f.area, a + b)
    ensures FixedTax(f.area, a + [r] + b) == FixedTax(f.area, a + b)
    decreases |b|
  {
    if b == [] {
      Unfold(f, 1, a, r);
      assert a + [r] + b == a + [r] && a + b == a;
    } else {
      var init, last := b[..|b| - 1], Last(b);
      StateUnmoved(f, a, r, init);
      assert a + [r] + b == (a + [r] + init) + [last] && a + b == (a + init) + [last];
      Unfold(f, 1, a + [r] + init, last);
      Unfold(f, 1, a + init, last);
    }
  }

  lemma RawNext(f: Facts, q: int, before: seq<Rule>, r: Rule)
    ensures Raw(f, q, before + [r]) == Raw(f, q, before) + Charge(f, q, before, r)
  {
    Unfold(f, q, before, r);
  }

  lemma PricelessCharge(f: Facts, q: int, before: seq<Rule>, r: Rule)
    requires Priceless(f, r)
    ensures Charge(f, q, before, r) == 0.0
  {
    assert UnitCharge(f, before, r) == 0.0;
  }

  lemma SameCharge(f: Facts, q: int, a: seq<Rule>, b: seq<Rule>, r: Rule)
    requires Billable(f.area, a) == Billable(f.area, b) && FixedTax(f.area, a) == FixedTax(f.area, b)
    ensures Charge(f, q, a, r) == Charge(f, q, b, r)
  {
    SameUnit(f, a, b, r);
  }

  lemma {:induction false} RestUnmoved(f: Facts, q: int, a: seq<Rule>, r: Rule, b: seq<Rule>)
    requires Priceless(f, r)
    ensures Raw(f, q, a + [r] + b) == Raw(f, q, a + b)
    decreases |b|
  {
    if b == [] {
      RawNext(f, q, a, r);
      PricelessCharge(f, q, a, r);
      assert a + [r] + b == a + [r] && a + b == a;
    } else {
      var init, last := b[..|b| - 1], Last(b);
      RestUnmoved(f, q, a, r, init);
      StateUnmoved(f, a, r, init);
      assert a + [r] + b == (a + [r] + init) + [last] && a + b == (a + init) + [last];
      RawNext(f, q, a + [r] + init, last);
      RawNext(f, q, a + init, last);
      SameCharge(f, q, a + [r] + init, a + init, last);
    }
  }

  lemma SameUnit(f: Facts, a: seq<Rule>, b: seq<Rule>, r: Rule)
    requires Billable(f.area, a) == Billable(f.area, b) && FixedTax(f.area, a) == FixedTax(f.area, b)
    ensures UnitCharge(f, a, r) == UnitCharge(f, b, r)
  {
  }

  /**
   * Wherever it stands among the rules, a print-side formula without a price for the detected side
   * asks for manual review and leaves the estimate of all the others as it is.
   */
  lemma UnpricedFormulaOnlyAsksReview(f: Facts, q: int, a: seq<Rule>, r: Rule, b: seq<Rule>)
    requires r.kind.SizeBasedFormula? && r.formula.PrintSide? && SidePrice(r.formula.pieces, SideOf(f)).None?
    ensures Raw(f, q, a + [r] + b) == Raw(f, q, a + b)
    ensures AnyReview(f, a + [r] + b)
  {
    RestUnmoved(f, q, a, r, b);
    assert (a + [r] + b)[|a|] == r && NeedsReview(f, r);
  }

  lemma NoDoublePrice()
    ensures SidePrice([Piece("single", Some(0.5))], "double").None?
  {
    assert "double"[0] != "single"[0];
  }

  /** A double-sided request against a formula with only a single-sided price is left to manual review. */
  lemma SingleFallbackFails(req: Request, r: Rule)
    requires req.doubleSided && r.kind.SizeBasedFormula? && r.formula == PrintSide([Piece("single", Some(0.5))])
    ensures Quote(req, [r]) == Response(Some(r), [r], None, true)
  {
    var f, q := FactsOf(req), QuantityOf(req.quantity);
    NoDoublePrice();
    SingleNeverStandsIn(f, q, r, []);
    Unfold(f, q, [], r);
    assert [] + [r] == [r];
    assert Quote(req, [r]) == Answer([r], [r], true, 0.0);
  }

  // ---------------------------------------------------------------- quantity

  function Single(req: Request): Request {
    req.(quantity := Some(1))
  }

  lemma Distribute(q: real, x: real, y: real, x': real, y': real, sum: real, sum': real)
    requires x' == q * x && y' == q * y && sum == x + y && sum' == x' + y'
    ensures sum' == q * sum
  {
  }

  /** The unrounded estimate at quantity q is exactly q times the estimate for one piece. */
  lemma RawScales(f: Facts, q: int, rules: seq<Rule>)
    ensures Raw(f, q, rules) == q as real * Raw(f, 1, rules)
  {
    RawIsAmount(f, q, rules);
    RawIsAmount(f, 1, rules);
  }

  /** Nearest thousandth: no multiple of 0.001 is closer, and the error is at most half of it. */
  lemma RoundedIsNearest(x: real, k: int)
    ensures -0.0005 <= Rounded(x) - x <= 0.0005
    ensures (Rounded(x) * 1000.0).Floor as real == Rounded(x) * 1000.0
    ensures Distance(x, Rounded(x)) <= Distance(x, k as real / 1000.0)
  {
    var n: int := if x >= 0.0 then (x * 1000.0 + 0.5).Floor else -((-x * 1000.0 + 0.5).Floor);
    assert Rounded(x) == n as real / 1000.0;
    Nearest(x * 1000.0, n, k);
  }

  lemma Nearest(y: real, n: int, k: int)
    requires -0.5 <= n as real - y <= 0.5
    ensures Distance(y / 1000.0, n as real / 1000.0) <= Distance(y / 1000.0, k as real / 1000.0)
  {
    if k < n {
      assert k as real <= n as real - 1.0;
    } else if k > n {
      assert k as real >= n as real + 1.0;
    }
  }

  /** Halves go away from zero on both sides. */
  lemma RoundedIsOdd(x: real)
    ensures Rounded(-x) == -Rounded(x)
  {
    assert x == 0.0 ==> Rounded(x) == 0.0;
  }

  function Distance(x: real, y: real): real {
    if x <= y then y - x else x - y
  }

  /** Rounding a q-fold amount and q-folding a rounded one differ by at most 0.0005 (q + 1). */
  lemma RoundingDrift(x: real, q: int)
    requires q >= 1
    ensures Distance(Rounded(q as real * x), q as real * Rounded(x)) <= 0.0005 * (q as real + 1.0)
  {
    RoundedIsNearest(x, 0);
    RoundedIsNearest(q as real * x, 0);
    Drift(q as real, x, Rounded(x), Rounded(q as real * x), 0.0005);
  }

  lemma Drift(q: real, x: real, r: real, r': real, d: real)
    requires q >= 0.0 && -d <= r - x <= d && -d <= r' - q * x <= d
    ensures Distance(r', q * r) <= d * (q + 1.0)
  {
    var e := r - x;
    assert q * (d - e) >= 0.0 && q * (e + d) >= 0.0;
    assert q * r == q * x + q * e;
  }

  /**
   * Applied rules, matched rule and review being the same, two raw amounts in proportion are shown
   * or withheld together, and rounded in proportion.
   */
  lemma AnswersInProportion(rules: seq<Rule>, applied: seq<Rule>, review: bool, q: int, raw: real, one: real)
    requires q >= 1 && raw == q as real * one
    ensures Proportional(q, Answer(rules, applied, review, raw), Answer(rules, applied, review, one))
  {
    SignScales(q as real, one);
    RoundingDrift(one, q);
  }

  /** Two answers that differ only in their estimates, by the factor q but for the rounding. */
  ghost predicate Proportional(q: int, many: Response, one: Response) {
    && many.applied == one.applied && many.matched == one.matched && many.manualReview == one.manualReview
    && (many.estimate.Some? <==> one.estimate.Some?)
    && (many.estimate.Some? ==>
          Distance(many.estimate.value, q as real * one.estimate.value) <= 0.0005 * (q as real + 1.0))
  }

  /**
   * Applied rules, matched rule, manual review and the presence of an estimate do not depend on the
   * quantity, and the rounded estimates are proportional but for the rounding.
   */
  lemma QuantityLaw(req: Request, rules: seq<Rule>)
    ensures Proportional(QuantityOf(req.quantity), Quote(req, rules), Quote(Single(req), rules))
  {
    var f, q := FactsOf(req), QuantityOf(req.quantity);
    assert FactsOf(Single(req)) == f;
    RawScales(f, q, rules);
    AnswersInProportion(rules, AppliedRules(f, rules), AnyReview(f, rules), q, Raw(f, q, rules), Raw(f, 1, rules));
  }

  lemma SignScales(q: real, x: real)
    requires q > 0.0
    ensures q * x > 0.0 <==> x > 0.0
  {
    if x > 0.0 {
      assert q * x > 0.0;
    } else {
      assert q * -x >= 0.0;
      assert q * x == -(q * -x);
    }
  }
}
