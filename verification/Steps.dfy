/**
  What each operation does to the rows, written against recomputed totals only.

  TxnCore carries the same operations out with running columns and loops; its methods are proved to
  change the rows in exactly this way.  For every operation there is a predicate that says when it
  goes through (`CreateOk`, `DeleteOk`, ...) and a function for the rows it then leaves (`Create`,
  `Delete`, ...); both are put together from the same parts, the rows a document's payments and
  allocations make and the statuses they call for.
*/
module Steps {
  import opened Wrappers
  import opened Sums
  import opened Books

  function NonDebt(): PayIn -> real { (p: PayIn) => if p.tender.Debt? then 0.0 else p.amount }

  function AnyTender(): PayIn -> real { (p: PayIn) => p.amount }

  predicate MakesRow(p: PayIn) { !p.tender.Debt? && p.amount > 0.0 }

  function RowPart(): PayIn -> real { (p: PayIn) => if MakesRow(p) then p.amount else 0.0 }

  /** Payments with a positive amount, in order. */
  function Kept(ps: seq<PayIn>): (r: seq<PayIn>)
    ensures forall k :: 0 <= k < |r| ==> r[k] in ps && r[k].amount > 0.0
  {
    if |ps| == 0 then []
    else
      var n := |ps| - 1;
      if ps[n].amount > 0.0 then Kept(ps[..n]) + [ps[n]] else Kept(ps[..n])
  }

  // ----- Payment rows -----

  /** The account a new payment lands in; a branch document never loses one, it opens it. */
  function Land(accounts: seq<Account>, branch: Option<nat>, p: PayIn): (seq<Account>, Option<nat>) {
    var found := Resolve(accounts, branch, p.account, p.tender);
    if found.None? && p.account.None? && branch.Some?
    then (accounts + [Account(branch, TillOf(p.tender), 0.0)], Some(|accounts|))
    else (accounts, found)
  }

  function TenderOne(id: nat, kind: Kind, branch: Option<nat>, p: PayIn, accounts: seq<Account>, pays: seq<Pay>)
    : (seq<Account>, seq<Pay>)
  {
    if !MakesRow(p) then (accounts, pays)
    else if p.tender.Cheque? then
      (accounts, pays + [Pay(id, Inbound(kind), Cheque, None, p.amount, 0, OpenSlip)])
    else
      var (accounts', landed) := Land(accounts, branch, p);
      (accounts', pays + [Pay(id, Inbound(kind), p.tender, if landed.Some? then landed else p.account,
                              p.amount, if landed.Some? then 1 else 0, NoSlip)])
  }

  function TenderAll(id: nat, kind: Kind, branch: Option<nat>, ps: seq<PayIn>, accounts: seq<Account>, pays: seq<Pay>)
    : (seq<Account>, seq<Pay>)
  {
    if |ps| == 0 then (accounts, pays)
    else
      var n := |ps| - 1;
      var (accounts', pays') := TenderAll(id, kind, branch, ps[..n], accounts, pays);
      TenderOne(id, kind, branch, ps[n], accounts', pays')
  }

  function UndoPay(accounts: seq<Account>, branch: Option<nat>, r: Pay): Pay {
    if r.tender.Cheque? then r.(slip := NoSlip)
    else if Resolve(accounts, branch, r.account, r.tender).Some? then r.(net := r.net - 1)
    else r
  }

  function RedoPay(accounts: seq<Account>, branch: Option<nat>, r: Pay): Pay {
    if r.tender.Cheque? then r.(slip := OpenSlip)
    else if Resolve(accounts, branch, r.account, r.tender).Some? then r.(net := r.net + 1)
    else r
  }

  function Undone(d: Docs, id: nat): seq<Pay>
    requires id < |d.txns|
  {
    seq(|d.pays|, k requires 0 <= k < |d.pays| =>
      if d.pays[k].txn == id then UndoPay(d.accounts, d.txns[id].branch, d.pays[k]) else d.pays[k])
  }

  function Redone(d: Docs, id: nat): seq<Pay>
    requires id < |d.txns|
  {
    seq(|d.pays|, k requires 0 <= k < |d.pays| =>
      if d.pays[k].txn == id then RedoPay(d.accounts, d.txns[id].branch, d.pays[k]) else d.pays[k])
  }

  // ----- Allocation rows -----

  function AllocRows(id: nat, als: seq<AllocIn>): seq<Alloc> {
    seq(|als|, k requires 0 <= k < |als| => Alloc(id, als[k].against, als[k].amount, als[k].discount, 1))
  }

  function Shifted(als: seq<Alloc>, id: nat, step: int): seq<Alloc> {
    seq(|als|, k requires 0 <= k < |als| => if als[k].pay == id then als[k].(net := als[k].net + step) else als[k])
  }

  function TargetsIn(als: seq<AllocIn>): nat -> bool {
    (x: nat) => exists k :: 0 <= k < |als| && als[k].against == x
  }

  function TargetsOf(als: seq<Alloc>, id: nat): nat -> bool {
    (x: nat) => exists k :: 0 <= k < |als| && als[k].pay == id && als[k].against == x
  }

  /** Two versions of a document that differ only in what no total looks at. */
  predicate SameFigures(s: Txn, t: Txn) {
    t.(status := s.status, deleted := s.deleted) == s
  }

  /** Every bill the predicate picks gets the status its recomputed paid amount calls for. */
  ghost function Restated(d: Docs, touched: nat -> bool): (r: seq<Txn>)
    ensures |r| == |d.txns|
    ensures forall x :: 0 <= x < |r| ==> SameFigures(d.txns[x], r[x])
    ensures forall x :: 0 <= x < |r| && r[x].status.Held? ==> d.txns[x].status.Held?
  {
    assert forall x :: 0 <= x < |d.txns| ==> !BillStatus(d.txns[x].total, PaidDue(d, x)).Held?;
    seq(|d.txns|, x requires 0 <= x < |d.txns| =>
      if touched(x) then d.txns[x].(status := BillStatus(d.txns[x].total, PaidDue(d, x))) else d.txns[x])
  }

  /** New allocations recorded against their bills, and the bills' statuses recomputed. */
  ghost function Allocated(d: Docs, id: nat, als: seq<AllocIn>): Docs {
    var d1 := d.(allocs := d.allocs + AllocRows(id, als));
    d1.(txns := Restated(d1, TargetsIn(als)))
  }

  ghost function PartlyShifted(als: seq<Alloc>, id: nat, step: int, n: nat): seq<Alloc>
    requires n <= |als|
  {
    Shifted(als[..n], id, step) + als[n..]
  }

  /** The same, stopped after the first n allocation rows. */
  ghost function PartlyReallocated(d: Docs, id: nat, step: int, n: nat): Docs
    requires n <= |d.allocs|
  {
    var d1 := d.(allocs := PartlyShifted(d.allocs, id, step, n));
    d1.(txns := Restated(d1, TargetsOf(d.allocs[..n], id)))
  }

  /** A payment's stored allocations applied once more (step 1) or taken back (step -1). */
  ghost function Reallocated(d: Docs, id: nat, step: int): Docs {
    var d1 := d.(allocs := Shifted(d.allocs, id, step));
    d1.(txns := Restated(d1, TargetsOf(d.allocs, id)))
  }

  // ----- Guards -----

  /** A document that takes stock out may not ask for more of an item than there is. */
  ghost predicate StockFits(d: Docs, kind: Kind, lines: seq<Line>) {
    StockEffect(kind) < 0 ==>
      forall i :: 0 <= i < |d.items| && Demand(d.items, lines, i) > 0.0 ==> Demand(d.items, lines, i) <= StockDue(d, i)
  }

  predicate TendersOk(accounts: seq<Account>, ps: seq<PayIn>) {
    forall k :: 0 <= k < |ps| ==> TenderOk(accounts, ps[k])
  }

  predicate TenderOk(accounts: seq<Account>, p: PayIn) {
    MakesRow(p) && !p.tender.Cheque? && p.account.Some? ==> p.account.value < |accounts|
  }

  predicate AllocInOk(d: Docs, kind: Kind, party: Option<nat>, a: AllocIn) {
    && a.against < |d.txns|
    && Expected(kind) == Some(d.txns[a.against].kind)
    && (party.Some? ==> d.txns[a.against].party == party)
  }

  predicate AllocsInOk(d: Docs, kind: Kind, party: Option<nat>, als: seq<AllocIn>) {
    forall k :: 0 <= k < |als| ==> AllocInOk(d, kind, party, als[k])
  }

  // ----- Posting, reversing, posting again -----

  ghost predicate PostOk(d: Docs, id: nat, ps: seq<PayIn>, als: seq<AllocIn>)
    requires id < |d.txns|
  {
    var t := d.txns[id];
    && StockFits(d, t.kind, t.lines)
    && TendersOk(d.accounts, ps)
    && (IsPayment(t.kind) ==> AllocsInOk(d, t.kind, t.party, als))
  }

  /** Effects of a document that is already in the table and has never been posted. */
  ghost function Post(d: Docs, id: nat, ps: seq<PayIn>, als: seq<AllocIn>): Docs
    requires id < |d.txns|
  {
    var t := d.txns[id];
    var used := if IsPayment(t.kind) then als else [];
    var (accounts, pays) := TenderAll(id, t.kind, t.branch, ps, d.accounts, d.pays);
    var d1 := d.(warehouses := WarehousesAfter(d, t), accounts := accounts, pays := pays,
                 txns := d.txns[id := t.(net := t.net + 1, posted := true, settled := Sum(ps, RowPart()))],
                 allocs := d.allocs + AllocRows(id, used));
    d1.(txns := Restated(d1, TargetsIn(used)))
  }

  ghost function Unpost(d: Docs, id: nat): Docs
    requires id < |d.txns|
  {
    var t := d.txns[id];
    var d1 := d.(warehouses := WarehousesAfter(d, t), pays := Undone(d, id),
                 txns := d.txns[id := t.(net := t.net - 1)], allocs := Shifted(d.allocs, id, -1));
    d1.(txns := Restated(d1, TargetsOf(d.allocs, id)))
  }

  ghost function Repost(d: Docs, id: nat): Docs
    requires id < |d.txns|
  {
    var t := d.txns[id];
    var d1 := d.(warehouses := WarehousesAfter(d, t), pays := Redone(d, id),
                 txns := d.txns[id := t.(net := t.net + 1)], allocs := Shifted(d.allocs, id, 1));
    d1.(txns := Restated(d1, TargetsOf(d.allocs, id)))
  }

  // ----- The document operations -----

  function FirstStatus(kind: Kind, total: real, paid: real, chosen: Option<Status>): Status {
    if chosen.Some? then chosen.value
    else if IsOrder(kind) then OrderOpen
    else if IsPayment(kind) then Paid
    else BillStatus(total, paid)
  }

  function KeptPayments(f: Draft): seq<PayIn> {
    if IsOrder(f.kind) then [] else Kept(f.payments)
  }

  function BasePaid(f: Draft): real {
    if IsPayment(f.kind) then f.total else Sum(KeptPayments(f), NonDebt())
  }

  predicate DraftOk(d: Docs, f: Draft) {
    && (|f.lines| > 0 || IsPayment(f.kind) || f.kind.Expense? || f.kind.P2PTransfer?)
    && (forall k :: 0 <= k < |f.lines| ==> LineOk(d.items, f.lines[k]))
    && (f.party.Some? ==> f.party.value < |d.parties|)
    && (f.kind.P2PTransfer? && f.party.Some? && f.p2pTo.Some? ==> f.p2pTo.value < |d.parties|)
    && (f.source.Some? ==> f.source.value < |d.txns|)
    && f.total >= 0.0
    && (IsPayment(f.kind) ==> Sum(KeptPayments(f), AnyTender()) == f.total)
    && (!IsPayment(f.kind) ==> Sum(KeptPayments(f), NonDebt()) <= f.total)
  }

  function NewTxn(f: Draft): Txn {
    Txn(f.kind, f.branch, f.party, f.p2pTo, f.lines, f.total, BasePaid(f), 0.0, f.source,
        FirstStatus(f.kind, f.total, BasePaid(f), f.status), false, false, 0)
  }

  function Inserted(d: Docs, f: Draft): Docs { d.(txns := d.txns + [NewTxn(f)]) }

  ghost predicate CreateOk(d: Docs, f: Draft) {
    DraftOk(d, f)
    && (!f.OnHold() ==> PostOk(Inserted(d, f), |d.txns|, KeptPayments(f), f.allocations))
  }

  ghost function Create(d: Docs, f: Draft): Docs {
    if f.OnHold() then Inserted(d, f) else Post(Inserted(d, f), |d.txns|, KeptPayments(f), f.allocations)
  }

  /** Edited lines and the total priced from them, when a held bill was changed before charging. */
  datatype Edit = Edit(lines: seq<Line>, total: real)

  function Edited(t: Txn, edit: Option<Edit>): Txn {
    if edit.Some? then t.(lines := edit.value.lines, total := edit.value.total) else t
  }

  function Resumed(t: Txn, edit: Option<Edit>, ps: seq<PayIn>): Txn {
    var t1 := Edited(t, edit);
    var paid := Sum(ps, NonDebt());
    t1.(base := paid, status := BillStatus(t1.total, paid))
  }

  function Charged(d: Docs, id: nat, edit: Option<Edit>, ps: seq<PayIn>): Docs
    requires id < |d.txns|
  {
    d.(txns := d.txns[id := Resumed(d.txns[id], edit, ps)])
  }

  predicate EditOk(d: Docs, edit: Option<Edit>) {
    edit.Some? ==> |edit.value.lines| > 0
                   && forall k :: 0 <= k < |edit.value.lines| ==> LineOk(d.items, edit.value.lines[k])
  }

  ghost predicate ResumeOk(d: Docs, id: nat, edit: Option<Edit>, ps: seq<PayIn>) {
    && id < |d.txns| && d.txns[id].status.Held?
    && EditOk(d, edit)
    && Sum(ps, NonDebt()) <= Edited(d.txns[id], edit).total
    && PostOk(Charged(d, id, edit, ps), id, ps, [])
  }

  ghost function Resume(d: Docs, id: nat, edit: Option<Edit>, ps: seq<PayIn>): Docs
    requires id < |d.txns|
  {
    Post(Charged(d, id, edit, ps), id, ps, [])
  }

  predicate HasConversion(d: Docs, id: nat) {
    exists c :: 0 <= c < |d.txns| && d.txns[c].source == Some(id)
  }

  predicate HasAllocation(d: Docs, id: nat) {
    exists k :: 0 <= k < |d.allocs| && d.allocs[k].against == id
  }

  predicate DeleteOk(d: Docs, id: nat) {
    id < |d.txns| && !d.txns[id].deleted && !HasConversion(d, id) && !HasAllocation(d, id)
  }

  /** The document this one was converted from can be converted again. */
  function Reopened(txns: seq<Txn>, source: Option<nat>): seq<Txn> {
    if source.Some? && source.value < |txns| then txns[source.value := txns[source.value].(status := OrderOpen)]
    else txns
  }

  function Flagged(txns: seq<Txn>, id: nat, deleted: bool): seq<Txn>
    requires id < |txns|
  {
    txns[id := txns[id].(deleted := deleted)]
  }

  ghost function Delete(d: Docs, id: nat): Docs
    requires id < |d.txns|
  {
    var d1 := if d.txns[id].status.Held? then d else Unpost(d, id);
    d1.(txns := Flagged(Reopened(d1.txns, d.txns[id].source), id, true))
  }

  /** A restored cheque payment needs its slot free: a payment row has at most one cheque. */
  predicate ChequeFree(r: Pay, id: nat) {
    r.txn == id && r.tender.Cheque? ==> r.slip.NoSlip?
  }

  predicate ChequesFree(pays: seq<Pay>, id: nat) {
    forall k :: 0 <= k < |pays| ==> ChequeFree(pays[k], id)
  }

  ghost predicate RestoreOk(d: Docs, id: nat) {
    && id < |d.txns| && d.txns[id].deleted
    && (!d.txns[id].status.Held? ==>
          && StockFits(d, d.txns[id].kind, d.txns[id].lines)
          && ChequesFree(d.pays, id))
  }

  ghost function Restore(d: Docs, id: nat): Docs
    requires id < |d.txns|
  {
    var d1 := if d.txns[id].status.Held? then d else Repost(d, id);
    d1.(txns := Flagged(d1.txns, id, false))
  }

  // ----- Statuses written outside posting -----

  /** What an estimate, challan or order says once it has been converted. */
  predicate Closed(s: Status) { s.OrderClosed? || s.Converted? }

  function ClosingStatus(k: Kind): Status {
    if k.Estimate? || k.DeliveryChallan? then Converted else OrderClosed
  }

  function ItemQuantity(item: nat): Line -> real { (l: Line) => if l.item == Some(item) then l.quantity else 0.0 }

  /** How much of an item a live conversion of this document has received. */
  function ReceivedIn(id: nat, item: nat): Txn -> real {
    (t: Txn) => if t.source == Some(id) && !t.deleted then Sum(t.lines, ItemQuantity(item)) else 0.0
  }

  function Received(d: Docs, id: nat, item: nat): real { Sum(d.txns, ReceivedIn(id, item)) }

  /** With these lines received as well, every line of the order is covered. */
  predicate Covered(d: Docs, id: nat, lines: seq<Line>)
    requires id < |d.txns|
  {
    forall k :: 0 <= k < |d.txns[id].lines| ==> LineCovered(d, id, lines, d.txns[id].lines[k])
  }

  predicate LineCovered(d: Docs, id: nat, lines: seq<Line>, l: Line) {
    l.item.Some? ==> Received(d, id, l.item.value) + Sum(lines, ItemQuantity(l.item.value)) >= l.quantity
  }

  /** An order of which only these lines are received, and not yet everything, stays as it is. */
  function ClaimedStatus(d: Docs, id: nat, lines: Option<seq<Line>>): Status
    requires id < |d.txns|
  {
    var closing := ClosingStatus(d.txns[id].kind);
    if closing.OrderClosed? && lines.Some? && !Covered(d, id, lines.value) then d.txns[id].status else closing
  }

  function WithStatus(d: Docs, id: nat, s: Status): Docs
    requires id < |d.txns|
  {
    d.(txns := d.txns[id := d.txns[id].(status := s)])
  }

  /** Converting claims its source, of whatever kind and status, unless it is closed already. */
  predicate ClaimOk(d: Docs, id: nat) { id < |d.txns| && !Closed(d.txns[id].status) }

  function Claim(d: Docs, id: nat, lines: Option<seq<Line>>): Docs
    requires id < |d.txns|
  {
    WithStatus(d, id, ClaimedStatus(d, id, lines))
  }

  /** Nothing of the document has ever moved: it is as a held one is. */
  predicate NeverMoved(d: Docs, id: nat)
    requires id < |d.txns|
  {
    && !d.txns[id].posted && d.txns[id].net == 0
    && (forall k :: 0 <= k < |d.pays| ==> d.pays[k].txn != id)
    && (forall k :: 0 <= k < |d.allocs| ==> d.allocs[k].pay != id && d.allocs[k].against != id)
  }

  /** A conversion that could not be written gives its source the status back that it saw.  The server does
      so without looking; a bill that has moved since and is put on hold again leaves the books that are
      well formed (`Lifecycle` follows it further). */
  predicate ReleaseOk(d: Docs, id: nat, seen: Status) {
    id < |d.txns| && !Closed(seen) && (seen.Held? ==> NeverMoved(d, id))
  }

  /** An invoice returned in full is marked so, whatever its status. */
  predicate MarkOk(d: Docs, id: nat) { id < |d.txns| && d.txns[id].kind.SaleInvoice? }

  // ----- Cheques, transfers, stock outside documents -----

  predicate SettleOk(d: Docs, k: nat, a: nat) {
    k < |d.pays| && a < |d.accounts| && d.pays[k].slip.OpenSlip?
  }

  function Settle(d: Docs, k: nat, a: nat): Docs
    requires k < |d.pays|
  {
    d.(pays := d.pays[k := d.pays[k].(slip := ClosedSlip(a))])
  }

  predicate ReopenOk(d: Docs, k: nat) { k < |d.pays| && d.pays[k].slip.ClosedSlip? }

  function Reopen(d: Docs, k: nat): Docs
    requires k < |d.pays|
  {
    d.(pays := d.pays[k := d.pays[k].(slip := OpenSlip)])
  }

  predicate MoveMoneyOk(d: Docs, x: Transfer) {
    && x.amount > 0.0
    && (NeedsFrom(x.kind) ==> x.from.Some?) && (NeedsTo(x.kind) ==> x.to.Some?)
    && (x.from.Some? ==> x.from.value < |d.accounts|) && (x.to.Some? ==> x.to.value < |d.accounts|)
  }

  function MoveMoney(d: Docs, x: Transfer): Docs { d.(transfers := d.transfers + [x]) }

  /** Cash coming in from, or going out to, a loan. */
  predicate LoanOk(d: Docs, a: nat, amount: real) { amount > 0.0 && a < |d.accounts| }

  function LoanCash(d: Docs, a: nat, amount: real, repayment: bool): Docs {
    d.(loans := d.loans + [LoanLeg(a, if repayment then -amount else amount)])
  }

  function AddParty(d: Docs, opening: real): Docs { d.(parties := d.parties + [opening]) }

  function AddAccount(d: Docs, x: Account): Docs { d.(accounts := d.accounts + [x]) }

  /** A service never tracks stock. */
  function CleanItem(x: Item): Item { x.(trackStock := x.trackStock && !x.service) }

  function AddItem(d: Docs, x: Item, opening: real, branch: Option<nat>): Docs {
    var placed := opening > 0.0 && CleanItem(x).trackStock && branch.Some?;
    var ws := if placed then ResolveWarehouse(d.warehouses, branch.value) else d.warehouses;
    var at := if placed then Home(ws, branch.value) else None;
    d.(items := d.items + [CleanItem(x)], warehouses := ws,
       stockOps := d.stockOps + [StockOp(|d.items|, at, if x.service then 0.0 else opening, true)])
  }

  predicate AdjustItemOk(d: Docs, i: nat, quantity: real) {
    i < |d.items| && d.items[i].trackStock && quantity > 0.0
  }

  /** An adjustment booked through the item, at the warehouse of the branch. */
  function AdjustItem(d: Docs, i: nat, change: real, branch: Option<nat>): Docs {
    var ws := if branch.Some? then ResolveWarehouse(d.warehouses, branch.value) else d.warehouses;
    var at := if branch.Some? then Home(ws, branch.value) else None;
    d.(warehouses := ws, stockOps := d.stockOps + [StockOp(i, at, change, true)])
  }

  predicate AtWarehouseOk(d: Docs, i: nat, w: nat) { i < |d.items| && w < |d.warehouses| }

  /** An adjustment booked at a warehouse. */
  function AdjustAt(d: Docs, i: nat, w: nat, change: real): Docs {
    d.(stockOps := d.stockOps + [StockOp(i, Some(w), change, true)])
  }

  /** Moving stock between warehouses: it leaves one and enters the other.  With both the same,
      the second write wins over the first and the stock only enters. */
  function TransferStock(d: Docs, i: nat, from: nat, to: nat, quantity: real): Docs {
    if from == to then d.(stockOps := d.stockOps + [StockOp(i, Some(to), quantity, false)])
    else d.(stockOps := d.stockOps + [StockOp(i, Some(from), -quantity, false), StockOp(i, Some(to), quantity, false)])
  }
}
