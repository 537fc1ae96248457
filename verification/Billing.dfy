/** Requests as they come in: lines are priced, branches and credit limits are checked, and the engine
    posts the result. */
module Billing {
  import opened Wrappers
  import opened Sums
  import opened Refunds
  import opened Pricing
  import opened Books
  import opened Steps
  import opened Laws
  import opened PostingLaws
  import opened TxnCore

  /** What the server knows of items and parties beside the books. */
  datatype Masters = Masters(goods: seq<Good>, branches: seq<Option<nat>>, limits: seq<Option<real>>)

  datatype Request = Request(kind: Kind, branch: Option<nat>, party: Option<nat>, p2pTo: Option<nat>,
                             lines: seq<LineIn>, total: Option<real>, percent: Option<real>, discount: Option<real>,
                             charges: real, rounding: bool, payments: seq<PayIn>, allocations: seq<AllocIn>,
                             status: Option<Status>, source: Option<nat>)

  predicate SaleSide(k: Kind) {
    k.SaleInvoice? || k.CreditNote? || k.SaleOrder? || k.DeliveryChallan? || k.Estimate?
  }

  // ----- What a request comes to -----

  function GrossOf(goods: seq<Good>, sale: bool): LineIn -> real {
    (l: LineIn) => if l.item.Some? && l.item.value >= |goods| then 0.0 else LineTotal(StoredLine(goods, l, sale))
  }

  function PricedTotal(goods: seq<Good>, q: Request): real {
    if |q.lines| == 0 then OrElse(q.total, 0.0)
    else ComputeTotals(Sum(q.lines, GrossOf(goods, SaleSide(q.kind))), q.percent, q.discount, q.charges,
                       q.rounding).total
  }

  function EngineLine(goods: seq<Good>, l: LineIn): Line {
    Line(l.item, l.quantity, if l.item.Some? && l.item.value >= |goods| then "" else UnitOf(goods, l))
  }

  function EngineLines(goods: seq<Good>, lines: seq<LineIn>): seq<Line> {
    seq(|lines|, k requires 0 <= k < |lines| => EngineLine(goods, lines[k]))
  }

  function DraftOf(m: Masters, q: Request): Draft {
    Draft(q.kind, q.branch, q.party, q.p2pTo, EngineLines(m.goods, q.lines), PricedTotal(m.goods, q), q.payments,
          q.allocations, q.status, q.source)
  }

  /** The party is of the document's branch, and every line can be priced. */
  predicate Priceable(m: Masters, q: Request) {
    && (q.party.Some? && q.branch.Some? ==> q.party.value < |m.branches| && m.branches[q.party.value] == q.branch)
    && forall k :: 0 <= k < |q.lines| ==> LineFine(m.goods, q.lines[k], q.branch, SaleSide(q.kind), q.kind.SaleInvoice?)
  }

  /** The lines as built, handed to the engine. */
  function Handed(built: seq<Built>): seq<Line> {
    seq(|built|, k requires 0 <= k < |built| => Line(built[k].sold.item, built[k].sold.quantity, built[k].unit))
  }

  lemma PricedIsGross(goods: seq<Good>, lines: seq<LineIn>, sale: bool, p: Priced)
    requires PricedFrom(goods, lines, sale, p)
    ensures p.subtotal + p.taxTotal == Sum(lines, GrossOf(goods, sale))
    ensures Handed(p.built) == EngineLines(goods, lines)
  {
    GrossIsSubtotalPlusTax(goods, lines, sale, p);
    forall k | 0 <= k < |lines|
      ensures TotalOf()(SoldOf(p.built)[k]) == GrossOf(goods, sale)(lines[k])
      ensures Handed(p.built)[k] == EngineLines(goods, lines)[k]
    {
      assert BuiltFrom(goods, lines[k], sale, p.built[k]);
    }
    SumPointwise(SoldOf(p.built), lines, TotalOf(), GrossOf(goods, sale));
  }

  /** Lines priced, or the total as stated when there are none. */
  method Price(m: Masters, q: Request, branch: Option<nat>, floor: bool) returns (r: Option<(seq<Line>, real)>)
    ensures r.Some? <==> forall k :: 0 <= k < |q.lines|
                           ==> LineFine(m.goods, q.lines[k], branch, SaleSide(q.kind), floor)
    ensures r.Some? ==> r.value == (EngineLines(m.goods, q.lines), PricedTotal(m.goods, q))
  {
    if |q.lines| == 0 {
      assert EngineLines(m.goods, q.lines) == [];
      return Some(([], OrElse(q.total, 0.0)));
    }
    var priced := BuildLines(m.goods, q.lines, branch, SaleSide(q.kind), floor);
    if priced.None? { return None; }
    var p := priced.value;
    PricedIsGross(m.goods, q.lines, SaleSide(q.kind), p);
    var t := ComputeTotals(p.subtotal + p.taxTotal, q.percent, q.discount, q.charges, q.rounding);
    r := Some((Handed(p.built), t.total));
  }

  /** A document is priced and created, or refused and nothing changes. */
  method CreateDocument(e: Engine, m: Masters, q: Request) returns (ok: bool)
    requires e.Valid()
    modifies e
    ensures ok <==> Priceable(m, q) && CreateOk(old(e.rows), DraftOf(m, q))
    ensures ok ==> e.rows == Create(old(e.rows), DraftOf(m, q))
    ensures !ok ==> e.Untouched()
    ensures e.Valid() && e.Recorded()
  {
    hide CreateOk, Create;
    if q.party.Some? && q.branch.Some? && (q.party.value >= |m.branches| || m.branches[q.party.value] != q.branch) {
      return false;
    }
    var priced := Price(m, q, q.branch, q.kind.SaleInvoice?);
    if priced.None? { return false; }
    ok := e.CreateTxn(Draft(q.kind, q.branch, q.party, q.p2pTo, priced.value.0, priced.value.1, q.payments,
                            q.allocations, q.status, q.source));
  }

  // ----- Credit limits -----

  function LimitOf(m: Masters, party: Option<nat>): Option<real> {
    if party.Some? && party.value < |m.limits| then m.limits[party.value] else None
  }

  /** A sale is checked against the total the client states; none is stated, none is checked. */
  predicate InvoiceFits(m: Masters, q: Request, due: real) {
    LimitOf(m, q.party).Some? && q.total.Some? ==>
      due + (q.total.value - Sum(q.payments, NonDebt())) <= LimitOf(m, q.party).value
  }

  ghost function DueOf(d: Docs, party: Option<nat>): real {
    if party.Some? && party.value < |d.parties| then PartyDue(d, party.value) else 0.0
  }

  /** A finalised sale made under this client key, whether deleted or not. */
  predicate IsKnown(d: Docs, keys: seq<Option<nat>>, key: nat, x: nat) {
    x < |d.txns| && x < |keys| && keys[x] == Some(key) && d.txns[x].kind.SaleInvoice? && !d.txns[x].status.Held?
  }

  /** The first such sale, if there is one. */
  method FindKnown(d: Docs, keys: seq<Option<nat>>, key: nat) returns (found: Option<nat>)
    ensures found.Some? ==> IsKnown(d, keys, key, found.value)
                            && forall x: nat :: x < found.value ==> !IsKnown(d, keys, key, x)
    ensures found.None? ==> forall x: nat :: !IsKnown(d, keys, key, x)
  {
    for x := 0 to |d.txns|
      invariant forall y: nat :: y < x ==> !IsKnown(d, keys, key, y)
    {
      if IsKnown(d, keys, key, x) { return Some(x); }
    }
    found := None;
  }

  /** A request whose key is known gets the sale made before, and nothing changes; otherwise the sale is
      checked for credit and created. */
  method CreateInvoice(e: Engine, m: Masters, q: Request, keys: seq<Option<nat>>, key: Option<nat>)
    returns (invoice: Option<nat>)
    requires e.Valid() && q.kind.SaleInvoice?
    modifies e
    ensures key.Some? && (exists x: nat :: IsKnown(old(e.rows), keys, key.value, x))
            ==> e.Untouched() && invoice.Some? && IsKnown(e.rows, keys, key.value, invoice.value)
    ensures (key.Some? ==> forall x: nat :: !IsKnown(old(e.rows), keys, key.value, x))
            ==> (invoice.Some? <==> InvoiceFits(m, q, DueOf(old(e.rows), q.party)) && Priceable(m, q)
                                    && CreateOk(old(e.rows), DraftOf(m, q)))
                && (invoice.Some? ==> e.rows == Create(old(e.rows), DraftOf(m, q))
                                      && invoice.value == |old(e.rows).txns|)
    ensures invoice.None? ==> e.Untouched()
    ensures e.Valid() && e.Recorded()
  {
    hide CreateOk, Create;
    if key.Some? {
      var found := FindKnown(e.rows, keys, key.value);
      if found.Some? { return found; }
    }
    var due := if q.party.Some? && q.party.value < |e.dues| then e.dues[q.party.value] else 0.0;
    if !InvoiceFits(m, q, due) { return None; }
    var id := |e.rows.txns|;
    var ok := CreateDocument(e, m, q);
    invoice := if ok then Some(id) else None;
  }

  /** Charging a held bill is checked against the server's own total. */
  ghost predicate ChargeFits(m: Masters, d: Docs, id: nat, edit: Option<Edit>, ps: seq<PayIn>)
    requires id < |d.txns|
  {
    LimitOf(m, d.txns[id].party).Some? ==>
      DueOf(d, d.txns[id].party) + (Edited(d.txns[id], edit).total - Sum(ps, NonDebt()))
      <= LimitOf(m, d.txns[id].party).value
  }

  function EditOf(m: Masters, q: Request): Option<Edit> {
    if |q.lines| == 0 then None else Some(Edit(EngineLines(m.goods, q.lines), PricedTotal(m.goods, q)))
  }

  predicate EditPriceable(m: Masters, q: Request, branch: Option<nat>) {
    forall k :: 0 <= k < |q.lines| ==> LineFine(m.goods, q.lines[k], branch, true, true)
  }

  method ChargeHeld(e: Engine, m: Masters, id: nat, q: Request) returns (ok: bool)
    requires e.Valid() && q.kind.SaleInvoice?
    modifies e
    ensures ok <==> id < |old(e.rows).txns| && EditPriceable(m, q, old(e.rows).txns[id].branch)
                    && ChargeFits(m, old(e.rows), id, EditOf(m, q), q.payments)
                    && ResumeOk(old(e.rows), id, EditOf(m, q), q.payments)
    ensures ok ==> e.rows == Resume(old(e.rows), id, EditOf(m, q), q.payments)
    ensures !ok ==> e.Untouched()
    ensures e.Valid() && e.Recorded()
  {
    hide ResumeOk, Resume;
    if id >= |e.rows.txns| { return false; }
    var txn := e.rows.txns[id];
    var priced := Price(m, q, txn.branch, true);
    if priced.None? { return false; }
    var edit := if |q.lines| == 0 then None else Some(Edit(priced.value.0, priced.value.1));
    var paid := Sum(q.payments, NonDebt());
    var due := if txn.party.Some? && txn.party.value < |e.dues| then e.dues[txn.party.value] else 0.0;
    var limit := LimitOf(m, txn.party);
    if limit.Some? && due + (Edited(txn, edit).total - paid) > limit.value { return false; }
    ok := e.ResumeHeld(id, edit, q.payments);
  }

  // ----- What the checks achieve -----

  lemma PostedDue(d: Docs, id: nat, ps: seq<PayIn>, als: seq<AllocIn>, p: nat)
    requires Fresh(d, id) && p < |d.parties|
    ensures PartyDue(Post(d, id, ps, als), p)
            == PartyDue(d, p) + PartyShift(d.txns[id], p, Delta(d.txns[id], d.txns[id].base))
  {
    PostIsNetStep(d, id, ps, als);
    PostedParty(d, id, ps, p);
    NetChangeParty(d, Post(d, id, ps, als), id, PostedTxn(d, id, ps), p,
                   PartyShift(d.txns[id], p, Delta(d.txns[id], d.txns[id].base)));
  }

  /** Once a held sale has been charged the party owes no more than its limit, exactly because of the check. */
  lemma ChargeKeepsLimit(m: Masters, d: Docs, id: nat, edit: Option<Edit>, ps: seq<PayIn>)
    requires WellFormed(d) && ResumeOk(d, id, edit, ps) && d.txns[id].kind.SaleInvoice?
    requires d.txns[id].party.Some? && LimitOf(m, d.txns[id].party).Some?
    ensures DueOf(Resume(d, id, edit, ps), d.txns[id].party) <= LimitOf(m, d.txns[id].party).value
            <==> ChargeFits(m, d, id, edit, ps)
  {
    var d1, p := Charged(d, id, edit, ps), d.txns[id].party.value;
    assert TxnOk(d, id);
    ChargeIsFresh(d, id, edit, ps);
    PostedDue(d1, id, ps, [], p);
    ChargeMovesNoDue(d, id, edit, ps, p);
  }

  lemma ChargeMovesNoDue(d: Docs, id: nat, edit: Option<Edit>, ps: seq<PayIn>, p: nat)
    requires WellFormed(d) && id < |d.txns| && d.txns[id].status.Held? && p < |d.parties|
    ensures PartyDue(Charged(d, id, edit, ps), p) == PartyDue(d, p)
  {
    assert TxnOk(d, id);
    SumUpdate(d.txns, id, Resumed(d.txns[id], edit, ps), TxnParty(p));
  }

  /** A direct sale moves the party by what is left unpaid of the server's total; so the party stays
      within its limit exactly when that total was checked, which takes a client that states it. */
  lemma InvoiceKeepsLimitExactlyWhen(m: Masters, d: Docs, q: Request)
    requires WellFormed(d) && CreateOk(d, DraftOf(m, q)) && q.kind.SaleInvoice? && q.status != Some(Held)
    requires q.party.Some? && LimitOf(m, q.party).Some?
    ensures DueOf(Create(d, DraftOf(m, q)), q.party) <= LimitOf(m, q.party).value
            <==> InvoiceFits(m, q.(total := Some(PricedTotal(m.goods, q)), payments := Kept(q.payments)),
                             DueOf(d, q.party))
    ensures q.total.None? ==> InvoiceFits(m, q, DueOf(d, q.party))
  {
    var f := DraftOf(m, q);
    var d1, p := Inserted(d, f), q.party.value;
    InsertKeepsWellFormed(d, f);
    InsertMovesNothing(d, NewTxn(f));
    PostedDue(d1, |d.txns|, KeptPayments(f), f.allocations, p);
  }
}
