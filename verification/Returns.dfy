/**
  Returning goods against an invoice, any number of times.  Credit-note lines name the invoice
  line they return; older ones without that link are matched by item and price.
*/
module Returns {
  import opened Wrappers
  import opened Sums
  import opened Refunds

  const EPS := 0.000001

  /** A credit-note line. */
  datatype Back = Back(source: Option<nat>, item: Option<nat>, name: string, unitPrice: real, quantity: real)

  datatype Note = Note(deleted: bool, lines: seq<Back>)

  /** What an unlinked credit-note line is matched on: the item, or the name if there is none, and the price. */
  datatype Signature = ByItem(item: nat, price: real) | ByName(name: string, price: real)

  function Sig(item: Option<nat>, name: string, price: real): Signature {
    if item.Some? then ByItem(item.value, price) else ByName(name, price)
  }

  function LineSig(l: SoldLine): Signature { Sig(l.item, l.name, l.unitPrice) }

  function BackSig(b: Back): Signature { Sig(b.item, b.name, b.unitPrice) }

  function Min(a: real, b: real): real { if a <= b then a else b }

  // ----- What has come back -----

  function Flat(notes: seq<Note>): seq<Back> {
    if |notes| == 0 then [] else Flat(notes[..|notes| - 1]) + notes[|notes| - 1].lines
  }

  function Live(notes: seq<Note>): seq<Note> {
    if |notes| == 0 then []
    else
      var n := |notes| - 1;
      if notes[n].deleted then Live(notes[..n]) else Live(notes[..n]) + [notes[n]]
  }

  function LinkedPart(i: nat): Back -> real { (b: Back) => if b.source == Some(i) then b.quantity else 0.0 }

  function LegacyPart(s: Signature): Back -> real {
    (b: Back) => if b.source.None? && BackSig(b) == s then b.quantity else 0.0
  }

  /** Quantity returned through links to invoice line i. */
  function Linked(notes: seq<Note>, i: nat): real { Sum(Flat(notes), LinkedPart(i)) }

  /** Quantity returned without a link, for goods of this signature. */
  function Legacy(notes: seq<Note>, s: Signature): real { Sum(Flat(notes), LegacyPart(s)) }

  // ----- Handing unlinked returns to invoice lines, first line first -----

  function Room(lines: seq<SoldLine>, notes: seq<Note>, i: nat): real
    requires i < |lines|
  {
    AtLeastZero(lines[i].quantity - Linked(notes, i))
  }

  /** What the first k lines with signature s have been given of its unlinked returns. */
  function Given(lines: seq<SoldLine>, notes: seq<Note>, s: Signature, k: nat): real
    requires k <= |lines|
  {
    if k == 0 then 0.0
    else
      var before := Given(lines, notes, s, k - 1);
      before + (if LineSig(lines[k - 1]) == s
                then Min(AtLeastZero(Legacy(notes, s) - before), Room(lines, notes, k - 1)) else 0.0)
  }

  function Attributed(lines: seq<SoldLine>, notes: seq<Note>, i: nat): real
    requires i < |lines|
  {
    var s := LineSig(lines[i]);
    Min(AtLeastZero(Legacy(notes, s) - Given(lines, notes, s, i)), Room(lines, notes, i))
  }

  function Returned(lines: seq<SoldLine>, notes: seq<Note>, i: nat): real
    requires i < |lines|
  {
    Linked(notes, i) + Attributed(lines, notes, i)
  }

  function RoomFor(lines: seq<SoldLine>, notes: seq<Note>, s: Signature, k: nat): (room: real)
    requires k <= |lines|
    ensures room >= 0.0
  {
    if k == 0 then 0.0
    else RoomFor(lines, notes, s, k - 1) + (if LineSig(lines[k - 1]) == s then Room(lines, notes, k - 1) else 0.0)
  }

  /** Greedy though it is, it hands out exactly as much as can be handed out. */
  lemma {:induction false} GreedyHandsOut(lines: seq<SoldLine>, notes: seq<Note>, s: Signature, k: nat)
    requires k <= |lines|
    ensures Given(lines, notes, s, k) == Min(AtLeastZero(Legacy(notes, s)), RoomFor(lines, notes, s, k))
  {
    if k > 0 { GreedyHandsOut(lines, notes, s, k - 1); }
  }

  // ----- What is asked for -----

  datatype Ask = Ask(line: nat, quantity: real)

  /** The request: explicit quantities, or named lines, or neither; how to refund; and whether the
      customer and the items are still found when the credit note is created. */
  datatype Body = Body(parts: seq<Ask>, lineIds: seq<nat>, cash: bool, payments: Option<real>, found: bool)

  function Remaining(lines: seq<SoldLine>, already: seq<real>): seq<real>
    requires |already| == |lines|
  {
    seq(|lines|, i requires 0 <= i < |lines| => lines[i].quantity - already[i])
  }

  /** Each of the first k lines that is wanted, with all that remains of it. */
  function Rest(remaining: seq<real>, wanted: nat -> bool, k: nat): seq<Ask>
    requires k <= |remaining|
  {
    if k == 0 then []
    else Rest(remaining, wanted, k - 1) + (if wanted(k - 1) then [Ask(k - 1, remaining[k - 1])] else [])
  }

  function Asks(remaining: seq<real>, body: Body): seq<Ask> {
    if |body.parts| > 0 then body.parts
    else Rest(remaining, (i: nat) => |body.lineIds| == 0 || i in body.lineIds, |remaining|)
  }

  function AskedPart(i: nat): Ask -> real { (a: Ask) => if a.line == i && a.quantity > 0.0 then a.quantity else 0.0 }

  function Asked(asks: seq<Ask>, i: nat): real { Sum(asks, AskedPart(i)) }

  /** In total over the request, no line is asked for more than remains of it, but for the tolerance. */
  ghost predicate Fits(remaining: seq<real>, asks: seq<Ask>) {
    forall k :: 0 <= k < |asks| && asks[k].quantity > 0.0 ==> AskFits(remaining, asks, asks[k].line)
  }

  ghost predicate AskFits(remaining: seq<real>, asks: seq<Ask>, i: nat) {
    i < |remaining| && Asked(asks, i) <= remaining[i] + EPS
  }

  /** As the quantity column keeps it: to three decimals, halves up. */
  function ToThousandths(x: real): real { (x * 1000.0 + 0.5).Floor as real / 1000.0 }

  function BackOf(lines: seq<SoldLine>, a: Ask): Back
    requires a.line < |lines|
  {
    Back(Some(a.line), lines[a.line].item, lines[a.line].name, lines[a.line].unitPrice, ToThousandths(a.quantity))
  }

  function BacksOf(lines: seq<SoldLine>, asks: seq<Ask>): seq<Back> {
    if |asks| == 0 then []
    else
      var n := |asks| - 1;
      BacksOf(lines, asks[..n])
      + (if asks[n].quantity > 0.0 && asks[n].line < |lines| then [BackOf(lines, asks[n])] else [])
  }

  function Worth(lines: seq<SoldLine>): Ask -> real {
    (a: Ask) => if a.quantity > 0.0 && a.line < |lines| && lines[a.line].quantity > 0.0
                then LineRefund(lines[a.line], a.quantity) else 0.0
  }

  /** An untouched invoice returned whole repeats its bill discount and charges. */
  predicate Pristine(notes: seq<Note>, body: Body) { |body.parts| == 0 && |body.lineIds| == 0 && |Live(notes)| == 0 }

  function CreditTotal(bill: Bill, notes: seq<Note>, body: Body, asks: seq<Ask>): real {
    var gross := Sum(asks, Worth(bill.lines));
    if Pristine(notes, body) then gross - BillDiscount(bill, gross) + bill.charges else gross
  }

  function CashPaid(bill: Bill, notes: seq<Note>, body: Body, asks: seq<Ask>): real {
    if Pristine(notes, body) then
      (if body.payments.Some? then body.payments.value else if body.cash then bill.total else 0.0)
    else if body.cash then Floored(Sum(asks, Worth(bill.lines))) else 0.0
  }

  datatype Outcome = Refused | Credited(total: real, cash: real)

  /** Per line, the quantity counted as returned by these credit notes. */
  function Counted(lines: seq<SoldLine>, notes: seq<Note>): seq<real> {
    seq(|lines|, i requires 0 <= i < |lines| => Returned(lines, notes, i))
  }

  function Requested(lines: seq<SoldLine>, notes: seq<Note>, body: Body): seq<Ask> {
    Asks(Remaining(lines, Counted(lines, Live(notes))), body)
  }

  /** Every line has come back in full, but for the tolerance. */
  predicate Everything(lines: seq<SoldLine>, already: seq<real>, newly: seq<real>)
    requires |already| == |newly| == |lines|
  {
    forall i :: 0 <= i < |lines| ==> already[i] + newly[i] >= lines[i].quantity - EPS
  }

  ghost predicate AllBack(lines: seq<SoldLine>, notes: seq<Note>, asks: seq<Ask>) {
    forall i :: 0 <= i < |lines| ==> Returned(lines, Live(notes), i) + Asked(asks, i) >= lines[i].quantity - EPS
  }

  /** The credit note is made exactly when something positive is asked for, every line asked for
      exists with enough remaining, its total covers the cash, and customer and items are still found;
      otherwise nothing changes. */
  ghost predicate RefundSpec(bill: Bill, before: seq<Note>, body: Body, r: Outcome, after: seq<Note>) {
    var asks := Requested(bill.lines, before, body);
    var total, cash := CreditTotal(bill, before, body, asks), CashPaid(bill, before, body, asks);
    && (r.Credited? <==>
          Fits(Remaining(bill.lines, Counted(bill.lines, Live(before))), asks) && |BacksOf(bill.lines, asks)| > 0
          && Accepted(total, cash) && body.found)
    && after == (if r.Credited? then before + [Note(false, BacksOf(bill.lines, asks))] else before)
    && (r.Credited? ==> r.total == total && r.cash == AtLeastZero(cash))
  }

  lemma TallyStep(done: seq<Back>, note: seq<Back>, j: nat)
    requires j < |note|
    ensures forall i: nat :: Sum(done + note[..j + 1], LinkedPart(i))
              == Sum(done + note[..j], LinkedPart(i)) + LinkedPart(i)(note[j])
    ensures forall s :: Sum(done + note[..j + 1], LegacyPart(s))
              == Sum(done + note[..j], LegacyPart(s)) + LegacyPart(s)(note[j])
  {
    assert done + note[..j + 1] == done + note[..j] + [note[j]];
    forall i: nat
      ensures Sum(done + note[..j + 1], LinkedPart(i)) == Sum(done + note[..j], LinkedPart(i)) + LinkedPart(i)(note[j])
    {
      SumAppend(done + note[..j], note[j], LinkedPart(i));
    }
    forall s
      ensures Sum(done + note[..j + 1], LegacyPart(s)) == Sum(done + note[..j], LegacyPart(s)) + LegacyPart(s)(note[j])
    {
      SumAppend(done + note[..j], note[j], LegacyPart(s));
    }
  }

  lemma AskedStep(asks: seq<Ask>, k: nat, i: nat)
    requires k < |asks|
    ensures Asked(asks[..k + 1], i) == Asked(asks[..k], i) + AskedPart(i)(asks[k])
    ensures Asked(asks[..k + 1], i) <= Asked(asks, i)
  {
    assert asks[..k + 1] == asks[..k] + [asks[k]];
    SumAppend(asks[..k], asks[k], AskedPart(i));
    SumPrefix(asks, k + 1, AskedPart(i));
  }

  lemma StepWorth(lines: seq<SoldLine>, asks: seq<Ask>, k: nat)
    requires k < |asks|
    ensures Sum(asks[..k + 1], Worth(lines)) == Sum(asks[..k], Worth(lines)) + Worth(lines)(asks[k])
  {
    assert asks[..k + 1] == asks[..k] + [asks[k]];
    SumAppend(asks[..k], asks[k], Worth(lines));
  }

  lemma StepBacks(lines: seq<SoldLine>, asks: seq<Ask>, k: nat)
    requires k < |asks|
    ensures BacksOf(lines, asks[..k + 1]) == BacksOf(lines, asks[..k])
              + (if asks[k].quantity > 0.0 && asks[k].line < |lines| then [BackOf(lines, asks[k])] else [])
  {
    assert asks[..k + 1][..k] == asks[..k];
  }

  // ----- The invoice and its credit notes -----

  class Invoice {
    const bill: Bill
    var notes: seq<Note>
    var refunded: bool

    ghost predicate Valid()
      reads this
    {
      BillStored(bill)
    }

    constructor (b: Bill, earlier: seq<Note>)
      requires BillStored(b)
      ensures Valid() && bill == b && notes == earlier && !refunded
    {
      bill, notes, refunded := b, earlier, false;
    }

    /** Adds up linked and unlinked returns over the given credit notes. */
    method Tally(considered: seq<Note>) returns (linked: seq<real>, legacy: map<Signature, real>)
      ensures |linked| == |bill.lines| && forall i: nat :: i < |linked| ==> linked[i] == Linked(considered, i)
      ensures forall s :: (if s in legacy then legacy[s] else 0.0) == Legacy(considered, s)
    {
      linked := seq(|bill.lines|, i => 0.0);
      legacy := map[];
      var n := 0;
      while n < |considered|
        invariant 0 <= n <= |considered| && |linked| == |bill.lines|
        invariant forall i: nat :: i < |linked| ==> linked[i] == Linked(considered[..n], i)
        invariant forall s :: (if s in legacy then legacy[s] else 0.0) == Legacy(considered[..n], s)
      {
        var note, done := considered[n].lines, Flat(considered[..n]);
        var j := 0;
        assert note[..0] == [] && done + note[..0] == done;
        while j < |note|
          invariant 0 <= j <= |note| && |linked| == |bill.lines|
          invariant forall i: nat :: i < |linked| ==> linked[i] == Sum(done + note[..j], LinkedPart(i))
          invariant forall s :: (if s in legacy then legacy[s] else 0.0) == Sum(done + note[..j], LegacyPart(s))
        {
          var b := note[j];
          TallyStep(done, note, j);
          if b.source.Some? {
            if b.source.value < |linked| { linked := linked[b.source.value := linked[b.source.value] + b.quantity]; }
          } else {
            legacy := legacy[BackSig(b) := (if BackSig(b) in legacy then legacy[BackSig(b)] else 0.0) + b.quantity];
          }
          j := j + 1;
        }
        assert note[..|note|] == note && considered[..n + 1][..n] == considered[..n];
        n := n + 1;
      }
      assert considered[..n] == considered;
    }

    /** Per invoice line, the quantity counted as already returned. */
    method AlreadyReturned(considered: seq<Note>) returns (already: seq<real>)
      ensures |already| == |bill.lines|
              && forall i: nat :: i < |already| ==> already[i] == Returned(bill.lines, considered, i)
    {
      var linked, legacy := Tally(considered);
      already := [];
      var left := legacy;
      var k := 0;
      while k < |bill.lines|
        invariant 0 <= k <= |bill.lines| && |already| == k
        invariant forall i: nat :: i < k ==> already[i] == Returned(bill.lines, considered, i)
        invariant forall s :: (if s in left then left[s] else 0.0)
                    == Legacy(considered, s) - Given(bill.lines, considered, s, k)
      {
        var s := LineSig(bill.lines[k]);
        var cap := bill.lines[k].quantity - linked[k];
        var take := Min(AtLeastZero(if s in left then left[s] else 0.0), AtLeastZero(cap));
        already := already + [linked[k] + take];
        if s in left { left := left[s := left[s] - take]; }
        k := k + 1;
      }
    }

    /** What a line's picker in the return dialog is capped by: here deleted credit notes count too. */
    method ReturnedQuantities() returns (shown: seq<real>)
      ensures shown == Counted(bill.lines, notes)
    {
      shown := AlreadyReturned(notes);
    }

    /** Checks the requested lines one by one against what remains, adding up their worth. */
    method Collect(asks: seq<Ask>, remaining: seq<real>)
      returns (ok: bool, built: seq<Back>, worth: real, newly: seq<real>)
      requires Valid() && |remaining| == |bill.lines|
      ensures ok <==> Fits(remaining, asks)
      ensures |newly| == |bill.lines|
      ensures ok ==> built == BacksOf(bill.lines, asks) && worth == Sum(asks, Worth(bill.lines))
      ensures ok ==> forall i: nat :: i < |newly| ==> newly[i] == Asked(asks, i)
    {
      built, worth, newly := [], 0.0, seq(|bill.lines|, i => 0.0);
      var k := 0;
      while k < |asks|
        invariant 0 <= k <= |asks| && |newly| == |bill.lines|
        invariant forall i: nat :: i < |newly| ==> newly[i] == Asked(asks[..k], i)
        invariant forall j :: 0 <= j < k && asks[j].quantity > 0.0 ==> AskFits(remaining, asks[..k], asks[j].line)
        invariant built == BacksOf(bill.lines, asks[..k]) && worth == Sum(asks[..k], Worth(bill.lines))
      {
        var ask := asks[k];
        forall i: nat
          ensures Asked(asks[..k + 1], i) == Asked(asks[..k], i) + AskedPart(i)(ask)
        {
          AskedStep(asks, k, i);
        }
        StepWorth(bill.lines, asks, k);
        StepBacks(bill.lines, asks, k);
        if ask.quantity > 0.0 {
          if ask.line >= |bill.lines| { return false, built, worth, newly; }
          if ask.quantity > remaining[ask.line] - newly[ask.line] + EPS {
            AskedStep(asks, k, ask.line);
            return false, built, worth, newly;
          }
          assert Stored(bill.lines[ask.line]);
          built := built + [BackOf(bill.lines, ask)];
          worth := worth + LineRefund(bill.lines[ask.line], ask.quantity);
          newly := newly[ask.line := newly[ask.line] + ask.quantity];
        }
        k := k + 1;
      }
      assert asks[..k] == asks;
      ok := true;
    }

    /** Refunds the requested quantities; the invoice is marked once everything has come back. */
    method Refund(body: Body) returns (r: Outcome)
      requires Valid()
      modifies this
      ensures Valid() && RefundSpec(bill, old(notes), body, r, notes)
      ensures refunded <==> old(refunded)
                            || (r.Credited? && AllBack(bill.lines, old(notes), Requested(bill.lines, old(notes), body)))
    {
      var already := AlreadyReturned(Live(notes));
      assert already == Counted(bill.lines, Live(notes));
      var remaining := Remaining(bill.lines, already);
      var asks := Asks(remaining, body);
      var ok, built, worth, newly := Collect(asks, remaining);
      if !ok || |built| == 0 { return Refused; }
      var total := if Pristine(notes, body) then worth - BillDiscount(bill, worth) + bill.charges else worth;
      var cash := if Pristine(notes, body)
                  then (if body.payments.Some? then body.payments.value else if body.cash then bill.total else 0.0)
                  else if body.cash then Floored(worth) else 0.0;
      if !Accepted(total, cash) || !body.found { return Refused; }
      notes := notes + [Note(false, built)];
      r := Credited(total, AtLeastZero(cash));
      if Everything(bill.lines, already, newly) { refunded := true; }
    }

    /** Deleting or restoring one of the credit notes. */
    method SetDeleted(k: nat, deleted: bool)
      requires Valid() && k < |notes| && notes[k].deleted != deleted
      modifies this`notes
      ensures Valid() && notes == old(notes)[k := old(notes)[k].(deleted := deleted)]
    {
      notes := notes[k := notes[k].(deleted := deleted)];
    }
  }
}
