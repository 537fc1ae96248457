/** How the server prices a document: its lines, its bill discount and its rounding. */
module Pricing {
  import opened Wrappers
  import opened Sums
  import opened Refunds

  datatype Good = Good(salePrice: real, purchasePrice: real, costPrice: real, taxRate: real, unit: string,
                       branch: Option<nat>)

  /** A line as a client sends it; what it leaves out comes from the item. */
  datatype LineIn = LineIn(item: Option<nat>, name: string, quantity: real, unitPrice: Option<real>,
                           discountPercent: Option<real>, discountAmount: Option<real>, taxRate: Option<real>,
                           unit: Option<string>)

  datatype Built = Built(sold: SoldLine, unit: string, taxAmount: real, total: real)

  function OrElse(x: Option<real>, y: real): real { if x.Some? then x.value else y }

  function CostOf(g: Good): real { if g.costPrice > 0.0 then g.costPrice else g.purchasePrice }

  function PriceOf(goods: seq<Good>, l: LineIn, sale: bool): real
    requires l.item.Some? ==> l.item.value < |goods|
  {
    OrElse(l.unitPrice, if l.item.None? then 0.0 else if sale then goods[l.item.value].salePrice
                                                      else goods[l.item.value].purchasePrice)
  }

  function RateOf(goods: seq<Good>, l: LineIn): real
    requires l.item.Some? ==> l.item.value < |goods|
  {
    OrElse(l.taxRate, if l.item.None? then 0.0 else goods[l.item.value].taxRate)
  }

  function UnitOf(goods: seq<Good>, l: LineIn): string
    requires l.item.Some? ==> l.item.value < |goods|
  {
    if l.unit.Some? then l.unit.value else if l.item.Some? then goods[l.item.value].unit else "PCS"
  }

  /** A document of a branch is about that branch's items only. */
  predicate Found(goods: seq<Good>, l: LineIn, branch: Option<nat>) {
    l.item.Some? ==> l.item.value < |goods| && (branch.Some? ==> goods[l.item.value].branch == branch)
  }

  /** Sold below a known cost: refused where the floor is enforced. */
  predicate BelowCost(goods: seq<Good>, l: LineIn, sale: bool)
    requires l.item.Some? ==> l.item.value < |goods|
  {
    l.item.Some? && 0.0 < PriceOf(goods, l, sale) < CostOf(goods[l.item.value])
  }

  predicate LineFine(goods: seq<Good>, l: LineIn, branch: Option<nat>, sale: bool, floor: bool) {
    Found(goods, l, branch) && l.quantity > 0.0 && (floor ==> !BelowCost(goods, l, sale))
  }

  /** The line as it is stored. */
  function StoredLine(goods: seq<Good>, l: LineIn, sale: bool): SoldLine
    requires l.item.Some? ==> l.item.value < |goods|
  {
    var price := PriceOf(goods, l, sale);
    SoldLine(l.item, l.name, l.quantity, price, RateOf(goods, l), l.discountPercent,
             if l.discountPercent.Some? then PercentOf(price * l.quantity, l.discountPercent.value)
             else OrElse(l.discountAmount, 0.0))
  }

  function TaxableOf(): Built -> real { (b: Built) => b.sold.unitPrice * b.sold.quantity - b.sold.discountAmount }

  function TaxOf(): Built -> real { (b: Built) => b.taxAmount }

  datatype Priced = Priced(built: seq<Built>, subtotal: real, taxTotal: real)

  /** What pricing promises of its lines: each is the stored form of what was sent, and the two
      running totals are those of the lines. */
  ghost predicate PricedFrom(goods: seq<Good>, lines: seq<LineIn>, sale: bool, p: Priced) {
    && |p.built| == |lines|
    && (forall k :: 0 <= k < |lines| ==> BuiltFrom(goods, lines[k], sale, p.built[k]))
    && p.subtotal == Sum(p.built, TaxableOf())
    && p.taxTotal == Sum(p.built, TaxOf())
  }

  predicate BuiltFrom(goods: seq<Good>, l: LineIn, sale: bool, b: Built) {
    && (l.item.Some? ==> l.item.value < |goods|)
    && b.sold == StoredLine(goods, l, sale) && b.unit == UnitOf(goods, l)
    && Stored(b.sold) && b.total == LineTotal(b.sold)
    && b.total == TaxableOf()(b) + b.taxAmount
  }

  method BuildLine(goods: seq<Good>, l: LineIn, branch: Option<nat>, sale: bool, floor: bool) returns (r: Option<Built>)
    ensures r.Some? <==> LineFine(goods, l, branch, sale, floor)
    ensures r.Some? ==> BuiltFrom(goods, l, sale, r.value)
  {
    if !Found(goods, l, branch) { return None; }
    if l.quantity <= 0.0 { return None; }
    if floor && BelowCost(goods, l, sale) { return None; }
    var price := PriceOf(goods, l, sale);
    var gross := price * l.quantity;
    var discount := if l.discountPercent.Some? then PercentOf(gross, l.discountPercent.value)
                    else OrElse(l.discountAmount, 0.0);
    var taxable := gross - discount;
    var tax := PercentOf(taxable, RateOf(goods, l));
    r := Some(Built(SoldLine(l.item, l.name, l.quantity, price, RateOf(goods, l), l.discountPercent, discount),
                    UnitOf(goods, l), tax, taxable + tax));
  }

  /** Prices every line, or refuses the whole document if one is not fine. */
  method BuildLines(goods: seq<Good>, lines: seq<LineIn>, branch: Option<nat>, sale: bool, floor: bool)
    returns (r: Option<Priced>)
    ensures r.Some? <==> forall k :: 0 <= k < |lines| ==> LineFine(goods, lines[k], branch, sale, floor)
    ensures r.Some? ==> PricedFrom(goods, lines, sale, r.value)
  {
    var built, subtotal, taxTotal := [], 0.0, 0.0;
    var k := 0;
    while k < |lines|
      invariant 0 <= k <= |lines| && |built| == k
      invariant forall j :: 0 <= j < k
                  ==> LineFine(goods, lines[j], branch, sale, floor) && BuiltFrom(goods, lines[j], sale, built[j])
      invariant subtotal == Sum(built, TaxableOf()) && taxTotal == Sum(built, TaxOf())
    {
      var one := BuildLine(goods, lines[k], branch, sale, floor);
      if one.None? { return None; }
      var b := one.value;
      SumAppend(built, b, TaxableOf());
      SumAppend(built, b, TaxOf());
      subtotal := subtotal + (b.sold.unitPrice * b.sold.quantity - b.sold.discountAmount);
      taxTotal := taxTotal + b.taxAmount;
      built := built + [b];
      k := k + 1;
    }
    r := Some(Priced(built, subtotal, taxTotal));
  }

  // ----- Rounding -----

  /** Nearest whole number, halves away from zero. */
  function RoundHalfUp(x: real): int { if x >= 0.0 then (x + 0.5).Floor else -((-x + 0.5).Floor) }

  /** Nearest whole number, halves upwards. */
  function MathRound(x: real): int { (x + 0.5).Floor }

  /** The client's and the server's rounding differ exactly on negative halves. */
  lemma RoundsAgree(x: real)
    ensures RoundHalfUp(x) == MathRound(x) <==> x >= 0.0 || (x + 0.5).Floor as real != x + 0.5
    ensures -0.5 <= RoundHalfUp(x) as real - x <= 0.5
    ensures -0.5 <= MathRound(x) as real - x <= 0.5
  {
    var up, down := (x + 0.5).Floor, (-x + 0.5).Floor;
    assert up as real <= x + 0.5 < up as real + 1.0;
    assert down as real <= -x + 0.5 < down as real + 1.0;
    assert -1.0 < (up + down) as real <= 1.0;
  }

  // ----- Totals -----

  datatype Totals = Totals(discount: real, roundOff: real, total: real)

  function Raw(gross: real, percent: Option<real>, amount: Option<real>, charges: real): real {
    gross - (if percent.Some? then PercentOf(gross, percent.value) else OrElse(amount, 0.0)) + charges
  }

  function ComputeTotals(gross: real, percent: Option<real>, amount: Option<real>, charges: real,
                         rounding: bool): (t: Totals)
    ensures t.total == gross - t.discount + charges + t.roundOff
    ensures rounding ==> (t.total.Floor as real == t.total) && -0.5 <= t.roundOff <= 0.5
    ensures !rounding ==> t.roundOff == 0.0
  {
    var discount := if percent.Some? then PercentOf(gross, percent.value) else OrElse(amount, 0.0);
    var raw := gross - discount + charges;
    RoundsAgree(raw);
    if rounding then Totals(discount, RoundHalfUp(raw) as real - raw, RoundHalfUp(raw) as real)
    else Totals(discount, 0.0, raw)
  }

  function SoldOf(built: seq<Built>): seq<SoldLine> {
    seq(|built|, k requires 0 <= k < |built| => built[k].sold)
  }

  /** The lines' totals are the taxable amounts and the taxes together. */
  lemma GrossIsSubtotalPlusTax(goods: seq<Good>, lines: seq<LineIn>, sale: bool, p: Priced)
    requires PricedFrom(goods, lines, sale, p)
    ensures Sum(SoldOf(p.built), TotalOf()) == p.subtotal + p.taxTotal
  {
    forall k | 0 <= k < |p.built|
      ensures TotalOf()(SoldOf(p.built)[k]) == TaxableOf()(p.built[k]) + TaxOf()(p.built[k])
    {
      assert BuiltFrom(goods, lines[k], sale, p.built[k]);
    }
    SumPlus(SoldOf(p.built), p.built, p.built, TotalOf(), TaxableOf(), TaxOf());
  }

  /** An invoice priced this way is stored so that returns of it can be refunded to the cent. */
  lemma PricedBillIsStored(goods: seq<Good>, lines: seq<LineIn>, p: Priced, percent: Option<real>,
                           amount: Option<real>, charges: real, rounding: bool)
    requires PricedFrom(goods, lines, true, p)
    ensures var t := ComputeTotals(p.subtotal + p.taxTotal, percent, amount, charges, rounding);
            BillStored(Bill(SoldOf(p.built), percent, t.discount, charges, t.roundOff, t.total))
  {
    GrossIsSubtotalPlusTax(goods, lines, true, p);
    forall k | 0 <= k < |p.built|
      ensures Stored(SoldOf(p.built)[k])
    {
      assert BuiltFrom(goods, lines[k], true, p.built[k]);
    }
  }
}
