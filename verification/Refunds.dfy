/** What a returned quantity is worth. */
module Refunds {
  import opened Wrappers
  import opened Sums

  /** An invoice line as stored: its discount amount is for the whole line. */
  datatype SoldLine = SoldLine(item: Option<nat>, name: string, quantity: real, unitPrice: real, taxRate: real,
                               discountPercent: Option<real>, discountAmount: real)

  function PercentOf(amount: real, percent: real): real { amount * percent / 100.0 }

  function Taxed(taxable: real, rate: real): real { taxable + PercentOf(taxable, rate) }

  /** A stored line has a positive quantity, and a percentage discount is stored as its amount. */
  predicate Stored(l: SoldLine) {
    l.quantity > 0.0
    && (l.discountPercent.Some? ==> l.discountAmount == PercentOf(l.unitPrice * l.quantity, l.discountPercent.value))
  }

  function LineTotal(l: SoldLine): real { Taxed(l.unitPrice * l.quantity - l.discountAmount, l.taxRate) }

  /** The discount carried by a returned quantity. */
  function DiscountOn(l: SoldLine, quantity: real): real
    requires l.quantity > 0.0
  {
    if l.discountPercent.Some? then PercentOf(l.unitPrice * quantity, l.discountPercent.value)
    else l.discountAmount * (quantity / l.quantity)
  }

  function LineRefund(l: SoldLine, quantity: real): real
    requires l.quantity > 0.0
  {
    Taxed(l.unitPrice * quantity - DiscountOn(l, quantity), l.taxRate)
  }

  /** What the return dialog shows per line: its share of the stored total. */
  function DialogShare(l: SoldLine, quantity: real): real
    requires l.quantity > 0.0
  {
    LineTotal(l) * quantity / l.quantity
  }

  lemma Scaled(a: real, b: real, c: real)
    requires b > 0.0
    ensures a * c / b == a * (c / b) == a / b * c
  {
    var unit := a / b;
    assert a * c == unit * b * c == unit * c * b;
  }

  lemma TaxedScales(taxable: real, rate: real, share: real)
    ensures Taxed(taxable * share, rate) == Taxed(taxable, rate) * share
  {
    assert taxable * share * rate == taxable * rate * share;
    assert taxable * share * rate / 100.0 == taxable * rate / 100.0 * share;
  }

  lemma DiscountScales(l: SoldLine, quantity: real)
    requires Stored(l)
    ensures DiscountOn(l, quantity) == l.discountAmount * (quantity / l.quantity)
  {
    if l.discountPercent.Some? {
      var p, share := l.discountPercent.value, quantity / l.quantity;
      assert l.quantity * share == quantity;
      assert l.unitPrice * quantity == l.unitPrice * l.quantity * share;
      assert l.unitPrice * l.quantity * share * p == l.unitPrice * l.quantity * p * share;
    }
  }

  /** For percentage and flat discounts alike, a returned quantity is refunded its share of the
      stored line total: what the dialog showed. */
  lemma RefundIsShare(l: SoldLine, quantity: real)
    requires Stored(l)
    ensures LineRefund(l, quantity) == DialogShare(l, quantity)
  {
    var share := quantity / l.quantity;
    DiscountScales(l, quantity);
    assert l.unitPrice * quantity == l.unitPrice * l.quantity * share;
    assert l.unitPrice * quantity - DiscountOn(l, quantity) == (l.unitPrice * l.quantity - l.discountAmount) * share;
    TaxedScales(l.unitPrice * l.quantity - l.discountAmount, l.taxRate, share);
    Scaled(LineTotal(l), l.quantity, quantity);
  }

  function Itself(): real -> real { (x: real) => x }

  function RefundEach(l: SoldLine): real -> real { (q: real) => if l.quantity > 0.0 then LineRefund(l, q) else 0.0 }

  lemma {:induction false} RefundsAdd(l: SoldLine, parts: seq<real>)
    requires Stored(l)
    ensures Sum(parts, RefundEach(l)) == DialogShare(l, Sum(parts, Itself()))
  {
    if |parts| > 0 {
      var n := |parts| - 1;
      RefundsAdd(l, parts[..n]);
      RefundIsShare(l, parts[n]);
      var before, unit := Sum(parts[..n], Itself()), LineTotal(l) / l.quantity;
      Scaled(LineTotal(l), l.quantity, before);
      Scaled(LineTotal(l), l.quantity, parts[n]);
      Scaled(LineTotal(l), l.quantity, before + parts[n]);
      assert unit * (before + parts[n]) == unit * before + unit * parts[n];
    }
  }

  /** However a line's quantity is split over returns, the refunds add up to its stored total. */
  lemma SplitsRefundTheLine(l: SoldLine, parts: seq<real>)
    requires Stored(l) && Sum(parts, Itself()) == l.quantity
    ensures Sum(parts, RefundEach(l)) == LineTotal(l)
  {
    RefundsAdd(l, parts);
  }

  // ----- The credit note -----

  /** Rounded down to whole cents. */
  function Floored(x: real): (r: real)
    ensures r <= x < r + 0.01
  {
    (x * 100.0).Floor as real / 100.0
  }

  function AtLeastZero(x: real): real { if x > 0.0 then x else 0.0 }

  /** A credit note is accepted with this total and this much cash paid back (payments that are not
      positive are dropped before the check). */
  predicate Accepted(total: real, cash: real) { total >= 0.0 && AtLeastZero(cash) <= total }

  /** The floored cash refund is always accepted, and leaves less than a cent. */
  lemma FlooredCashAccepted(total: real)
    ensures Accepted(total, Floored(total)) <==> total >= 0.0
    ensures total >= 0.0 ==> 0.0 <= total - AtLeastZero(Floored(total)) < 0.01
  {
    if total >= 0.0 { assert (total * 100.0).Floor >= 0; }
  }

  /** Bill-level figures of a stored invoice. */
  datatype Bill = Bill(lines: seq<SoldLine>, discountPercent: Option<real>, discountAmount: real, charges: real,
                       roundOff: real, total: real)

  function TotalOf(): SoldLine -> real { (l: SoldLine) => LineTotal(l) }

  function BillDiscount(b: Bill, gross: real): real {
    if b.discountPercent.Some? then PercentOf(gross, b.discountPercent.value) else b.discountAmount
  }

  predicate BillStored(b: Bill) {
    var gross := Sum(b.lines, TotalOf());
    && (forall k :: 0 <= k < |b.lines| ==> Stored(b.lines[k]))
    && b.discountAmount == BillDiscount(b, gross)
    && b.total == gross - b.discountAmount + b.charges + b.roundOff
  }

  function FullRefund(): SoldLine -> real {
    (l: SoldLine) => if l.quantity > 0.0 then LineRefund(l, l.quantity) else 0.0
  }

  /** The total of a credit note that repeats the whole invoice, without rounding. */
  function PristineTotal(b: Bill): real {
    var gross := Sum(b.lines, FullRefund());
    gross - BillDiscount(b, gross) + b.charges
  }

  /** Returning an untouched invoice whole gives its total before round-off, so paying its total
      back in cash is accepted exactly when it had not been rounded up. */
  lemma PristineReturn(b: Bill)
    requires BillStored(b)
    ensures PristineTotal(b) == b.total - b.roundOff
    ensures b.total >= 0.0 ==> (Accepted(PristineTotal(b), b.total) <==> b.roundOff <= 0.0)
  {
    forall k | 0 <= k < |b.lines| ensures FullRefund()(b.lines[k]) == TotalOf()(b.lines[k]) {
      assert Stored(b.lines[k]);
      RefundIsShare(b.lines[k], b.lines[k].quantity);
    }
    SumPointwise(b.lines, b.lines, FullRefund(), TotalOf());
  }
}
