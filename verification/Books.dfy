/**
  The rows a business keeps, and what every derived number ought to be given those rows.

  Rows are never physically removed (deleting a document sets a flag), so a row's id is its
  index in its table.  Each `...Due` function recomputes one derived column from the rows
  alone; the class TxnCore maintains the same columns by increments.

  `net` on a document, payment or allocation row counts how often its effect has been added
  minus how often it has been taken back.  No method branches on it.  It is what lets the books
  be described exactly even on the paths where posting and reversing do not match up.
*/
module Books {
  import opened Wrappers
  import opened Sums

  // ----- Documents -----

  datatype Kind =
    | SaleInvoice | CreditNote | SaleOrder | DeliveryChallan | Estimate | PaymentIn
    | PurchaseBill | DebitNote | PurchaseOrder | PaymentOut | Expense | P2PTransfer

  datatype Status = Open | Partial | Paid | OrderOpen | OrderClosed | Converted | Held | Refunded
                  | Other(text: string)

  datatype Tender = Cash | Cheque | Bank | Upi | Card | Wallet | Debt

  datatype Till = CashTill | BankTill | UpiTill | CardTill

  datatype Item = Item(trackStock: bool, service: bool, secondaryUnit: string, rate: Option<real>)

  datatype Line = Line(item: Option<nat>, quantity: real, unit: string)

  datatype Account = Account(branch: Option<nat>, till: Till, opening: real)

  /** The cheque belonging to a payment row: none, in hand, or settled into an account. */
  datatype Slip = NoSlip | OpenSlip | ClosedSlip(account: nat)

  datatype Pay = Pay(txn: nat, inbound: bool, tender: Tender, account: Option<nat>, amount: real,
                     net: int, slip: Slip)

  datatype Alloc = Alloc(pay: nat, against: nat, amount: real, discount: real, net: int)

  /** `base` is the paid amount stored when the document was created or resumed; `settled` is
      the total of its stored payment rows. */
  datatype Txn = Txn(kind: Kind, branch: Option<nat>, party: Option<nat>, p2pTo: Option<nat>,
                     lines: seq<Line>, total: real, base: real, settled: real, source: Option<nat>,
                     status: Status, deleted: bool, posted: bool, net: int)

  /** A stock change outside documents: opening stock, an adjustment, or one side of a transfer
      between warehouses (which is not counted in the item's own total). */
  datatype StockOp = StockOp(item: nat, warehouse: Option<nat>, quantity: real, counted: bool)

  datatype TransferKind = BankToBank | BankToCash | CashToBank | AdjustIncrease | AdjustDecrease | OtherTransfer

  datatype Transfer = Transfer(kind: TransferKind, from: Option<nat>, to: Option<nat>, amount: real)

  datatype LoanLeg = LoanLeg(account: nat, amount: real)

  datatype Docs = Docs(items: seq<Item>, warehouses: seq<Option<nat>>, parties: seq<real>,
                       accounts: seq<Account>, txns: seq<Txn>, pays: seq<Pay>, allocs: seq<Alloc>,
                       stockOps: seq<StockOp>, transfers: seq<Transfer>, loans: seq<LoanLeg>)

  // ----- What callers send -----

  datatype PayIn = PayIn(tender: Tender, account: Option<nat>, amount: real)

  datatype AllocIn = AllocIn(against: nat, amount: real, discount: real)

  datatype Draft = Draft(kind: Kind, branch: Option<nat>, party: Option<nat>, p2pTo: Option<nat>,
                         lines: seq<Line>, total: real, payments: seq<PayIn>, allocations: seq<AllocIn>,
                         status: Option<Status>, source: Option<nat>) {
    /** Put on hold: written down, but not posted. */
    predicate OnHold() { status == Some(Held) }
  }

  // ----- Rules per kind of document -----

  predicate IsPayment(k: Kind) { k.PaymentIn? || k.PaymentOut? }

  predicate IsOrder(k: Kind) { k.SaleOrder? || k.PurchaseOrder? || k.Estimate? || k.DeliveryChallan? }

  predicate Inbound(k: Kind) { k.SaleInvoice? || k.SaleOrder? || k.PaymentIn? || k.DebitNote? }

  function StockEffect(k: Kind): int {
    match k
    case SaleInvoice | DebitNote => -1
    case CreditNote | PurchaseBill => 1
    case _ => 0
  }

  /** Signed effect on the party's balance; positive means the party owes more. */
  function PartyDelta(k: Kind, total: real, balance: real): real {
    match k
    case SaleInvoice | DebitNote => balance
    case CreditNote | PurchaseBill => -balance
    case PaymentIn => -total
    case PaymentOut => total
    case _ => 0.0
  }

  function BillStatus(total: real, paid: real): (s: Status)
    ensures s.Paid? <==> paid >= total
    ensures s.Partial? <==> 0.0 < paid < total
    ensures s.Open? <==> paid < total && paid <= 0.0
  {
    if total - paid <= 0.0 then Paid else if paid > 0.0 then Partial else Open
  }

  function TillOf(m: Tender): Till {
    match m
    case Cash => CashTill
    case Upi => UpiTill
    case Card => CardTill
    case _ => BankTill
  }

  /** n times x, for an amount applied n times (or taken back, when n is negative). */
  function Weigh(n: int, x: real): real
    decreases if n < 0 then -n else n
  {
    if n == 0 then 0.0 else if n > 0 then Weigh(n - 1, x) + x else Weigh(n + 1, x) - x
  }

  // ----- Stock -----

  predicate Tracked(x: Item) { x.trackStock && !x.service }

  function LineQuantity(x: Item, l: Line): real {
    if l.unit != "" && x.secondaryUnit != "" && l.unit == x.secondaryUnit && x.rate.Some?
    then l.quantity * x.rate.value
    else l.quantity
  }

  function LineDemand(items: seq<Item>, i: nat): Line -> real {
    (l: Line) => if l.item == Some(i) && i < |items| && Tracked(items[i]) then LineQuantity(items[i], l) else 0.0
  }

  /** Base-unit quantity of item i over all the lines. */
  function Demand(items: seq<Item>, lines: seq<Line>, i: nat): real {
    Sum(lines, LineDemand(items, i))
  }

  function Directed(direction: int, quantity: real): real {
    if direction > 0 then quantity else if direction < 0 then -quantity else 0.0
  }

  function Moves(items: seq<Item>, t: Txn, i: nat): real {
    Directed(StockEffect(t.kind), Demand(items, t.lines, i))
  }

  function TxnStock(items: seq<Item>, i: nat): Txn -> real {
    (t: Txn) => Weigh(t.net, Moves(items, t, i))
  }

  /** The warehouse a branch's stock lives in: the first one assigned to it. */
  function Home(ws: seq<Option<nat>>, b: nat, k: nat := 0): (h: Option<nat>)
    requires k <= |ws|
    ensures h.Some? ==> k <= h.value < |ws| && ws[h.value] == Some(b)
                        && forall j :: k <= j < h.value ==> ws[j] != Some(b)
    ensures h.None? ==> forall j :: k <= j < |ws| ==> ws[j] != Some(b)
    decreases |ws| - k
  {
    if k == |ws| then None else if ws[k] == Some(b) then Some(k) else Home(ws, b, k + 1)
  }

  /** Finding a branch's warehouse may claim an unassigned first warehouse or add a new one. */
  function ResolveWarehouse(ws: seq<Option<nat>>, b: nat): seq<Option<nat>> {
    if Home(ws, b).Some? || |ws| == 0 then ws
    else if ws[0].None? then ws[0 := Some(b)]
    else ws + [Some(b)]
  }

  predicate HasTracked(items: seq<Item>, lines: seq<Line>) {
    exists k :: 0 <= k < |lines| && LineTracked(items, lines[k])
  }

  predicate LineTracked(items: seq<Item>, l: Line) {
    l.item.Some? && l.item.value < |items| && Tracked(items[l.item.value])
  }

  predicate Shelves(items: seq<Item>, kind: Kind, branch: Option<nat>, lines: seq<Line>) {
    StockEffect(kind) != 0 && branch.Some? && HasTracked(items, lines)
  }

  function WarehousesAfter(d: Docs, t: Txn): seq<Option<nat>> {
    if Shelves(d.items, t.kind, t.branch, t.lines) then ResolveWarehouse(d.warehouses, t.branch.value) else d.warehouses
  }

  predicate HomeIs(ws: seq<Option<nat>>, branch: Option<nat>, w: nat) {
    branch.Some? && Home(ws, branch.value) == Some(w)
  }

  function TxnLevel(items: seq<Item>, ws: seq<Option<nat>>, i: nat, w: nat): Txn -> real {
    (t: Txn) => if HomeIs(ws, t.branch, w) then Weigh(t.net, Moves(items, t, i)) else 0.0
  }

  function OpStock(i: nat): StockOp -> real {
    (o: StockOp) => if o.item == i && o.counted then o.quantity else 0.0
  }

  function OpLevel(i: nat, w: nat): StockOp -> real {
    (o: StockOp) => if o.item == i && o.warehouse == Some(w) then o.quantity else 0.0
  }

  function StockDue(d: Docs, i: nat): real {
    Sum(d.stockOps, OpStock(i)) + Sum(d.txns, TxnStock(d.items, i))
  }

  function LevelDue(d: Docs, i: nat, w: nat): real {
    Sum(d.stockOps, OpLevel(i, w)) + Sum(d.txns, TxnLevel(d.items, d.warehouses, i, w))
  }

  // ----- Parties -----

  function Delta(t: Txn, basis: real): real { PartyDelta(t.kind, t.total, t.total - basis) }

  /** What first posting the document added beyond what reversing it takes away. */
  function Skew(t: Txn): real {
    if t.posted then Delta(t, t.base) - Delta(t, t.settled) else 0.0
  }

  function TxnParty(p: nat): Txn -> real {
    (t: Txn) =>
      if t.kind.P2PTransfer? then
        if t.party.Some? && t.p2pTo.Some? then
          (if t.party.value == p then Weigh(t.net, -t.total) else 0.0)
          + (if t.p2pTo.value == p then Weigh(t.net, t.total) else 0.0)
        else 0.0
      else if t.party == Some(p) then Weigh(t.net, Delta(t, t.settled)) + Skew(t)
      else 0.0
  }

  function PartyDue(d: Docs, p: nat): real
    requires p < |d.parties|
  {
    d.parties[p] + Sum(d.txns, TxnParty(p))
  }

  // ----- Money -----

  /** The first account, oldest first, that is of this kind (and of this branch, if one is given). */
  function FirstTill(accounts: seq<Account>, till: Till, branch: Option<nat>, k: nat := 0): (h: Option<nat>)
    requires k <= |accounts|
    ensures h.Some? ==> k <= h.value < |accounts| && IsTill(accounts[h.value], till, branch)
    ensures h.Some? ==> forall j :: k <= j < h.value ==> !IsTill(accounts[j], till, branch)
    ensures h.None? ==> forall j :: k <= j < |accounts| ==> !IsTill(accounts[j], till, branch)
    decreases |accounts| - k
  {
    if k == |accounts| then None
    else if IsTill(accounts[k], till, branch) then Some(k)
    else FirstTill(accounts, till, branch, k + 1)
  }

  predicate IsTill(a: Account, till: Till, branch: Option<nat>) {
    a.till == till && (branch.Some? ==> a.branch == branch)
  }

  /** The existing account a payment goes to: the chosen one if it belongs to the document's
      branch, otherwise by tender, first within the branch and then anywhere. */
  function Resolve(accounts: seq<Account>, branch: Option<nat>, account: Option<nat>, tender: Tender): Option<nat> {
    if account.Some? then
      if account.value < |accounts| && (branch.Some? ==> accounts[account.value].branch == branch) then account
      else None
    else
      var own := FirstTill(accounts, TillOf(tender), branch);
      if own.Some? then own else FirstTill(accounts, TillOf(tender), None)
  }

  function Signed(r: Pay): real { if r.inbound then r.amount else -r.amount }

  /** Where a payment row's money counts: its stored account, or for a row stored without one
      the account its tender maps to. */
  function Target(accounts: seq<Account>, r: Pay): Option<nat> {
    if r.account.Some? then r.account else FirstTill(accounts, TillOf(r.tender), None)
  }

  function PayMoney(accounts: seq<Account>, a: nat): Pay -> real {
    (r: Pay) =>
      if r.tender.Cheque? then (if r.slip == ClosedSlip(a) then Signed(r) else 0.0)
      else if Target(accounts, r) == Some(a) then Weigh(r.net, Signed(r))
      else 0.0
  }

  predicate NeedsFrom(k: TransferKind) { k.BankToBank? || k.BankToCash? || k.CashToBank? || k.AdjustDecrease? }

  predicate NeedsTo(k: TransferKind) { k.BankToBank? || k.BankToCash? || k.CashToBank? || k.AdjustIncrease? }

  function TransferMoney(a: nat): Transfer -> real {
    (x: Transfer) =>
      (if NeedsFrom(x.kind) && x.from == Some(a) then -x.amount else 0.0)
      + (if NeedsTo(x.kind) && x.to == Some(a) then x.amount else 0.0)
  }

  function LoanMoney(a: nat): LoanLeg -> real {
    (x: LoanLeg) => if x.account == a then x.amount else 0.0
  }

  function AccountDue(d: Docs, a: nat): real
    requires a < |d.accounts|
  {
    d.accounts[a].opening + Sum(d.pays, PayMoney(d.accounts, a))
    + Sum(d.transfers, TransferMoney(a)) + Sum(d.loans, LoanMoney(a))
  }

  function RowAmount(id: nat): Pay -> real {
    (r: Pay) => if r.txn == id then r.amount else 0.0
  }

  // ----- Bills -----

  function AllocPaid(x: nat): Alloc -> real {
    (a: Alloc) => if a.against == x then Weigh(a.net, a.amount + a.discount) else 0.0
  }

  function PaidDue(d: Docs, x: nat): real
    requires x < |d.txns|
  {
    d.txns[x].base + Sum(d.allocs, AllocPaid(x))
  }

  // ----- Well-formed tables -----

  function Expected(k: Kind): Option<Kind> {
    match k
    case PaymentIn => Some(SaleInvoice)
    case PaymentOut => Some(PurchaseBill)
    case _ => None
  }

  predicate ItemOk(x: Item) { x.rate.Some? ==> x.rate.value > 0.0 }

  predicate LineOk(items: seq<Item>, l: Line) {
    l.quantity > 0.0 && (l.item.Some? ==> l.item.value < |items|)
  }

  ghost predicate TxnOk(d: Docs, id: nat)
    requires id < |d.txns|
  {
    var t := d.txns[id];
    && (forall k {:trigger LineOk(d.items, t.lines[k])} :: 0 <= k < |t.lines| ==> LineOk(d.items, t.lines[k]))
    && (t.party.Some? ==> t.party.value < |d.parties|)
    && (t.kind.P2PTransfer? && t.party.Some? && t.p2pTo.Some? ==> t.p2pTo.value < |d.parties|)
    && (t.source.Some? ==> t.source.value < id)
    && t.settled == Sum(d.pays, RowAmount(id))
    && (t.status.Held? ==> !t.posted && t.net == 0)
  }

  ghost predicate HomeOk(d: Docs, t: Txn) {
    t.net != 0 && Shelves(d.items, t.kind, t.branch, t.lines) && |d.warehouses| > 0
    ==> Home(d.warehouses, t.branch.value).Some?
  }

  /** The accounts a payment row names exist, and a row that maps to no account moved nothing. */
  ghost predicate PayRefs(accounts: seq<Account>, r: Pay) {
    && (r.account.Some? ==> r.account.value < |accounts|)
    && (r.slip.ClosedSlip? ==> r.slip.account < |accounts|)
    && (r.tender.Cheque? ==> r.account.None? && r.net == 0)
    && (!r.tender.Cheque? ==> r.slip.NoSlip?)
    && (Target(accounts, r).None? ==> r.net == 0)
  }

  ghost predicate PayOk(d: Docs, r: Pay) {
    && PayRefs(d.accounts, r)
    && r.txn < |d.txns| && r.amount > 0.0 && !r.tender.Debt?
    && r.inbound == Inbound(d.txns[r.txn].kind)
    && !d.txns[r.txn].status.Held?
    && (!r.tender.Cheque? && r.account.None? ==> d.txns[r.txn].branch.None?)
  }

  ghost predicate MoneyRefs(d: Docs) {
    && (forall k {:trigger PayRefs(d.accounts, d.pays[k])} :: 0 <= k < |d.pays| ==> PayRefs(d.accounts, d.pays[k]))
    && (forall k :: 0 <= k < |d.loans| ==> d.loans[k].account < |d.accounts|)
    && (forall k {:trigger TransferOk(d, d.transfers[k])} :: 0 <= k < |d.transfers| ==> TransferOk(d, d.transfers[k]))
  }

  ghost predicate AllocOk(d: Docs, a: Alloc) {
    && a.pay < |d.txns| && a.against < |d.txns|
    && Expected(d.txns[a.pay].kind) == Some(d.txns[a.against].kind)
    && (d.txns[a.pay].party.Some? ==> d.txns[a.against].party == d.txns[a.pay].party)
    && !d.txns[a.against].status.Held?
    && !d.txns[a.pay].status.Held?
    && a.net == d.txns[a.pay].net
  }

  ghost predicate OpOk(d: Docs, o: StockOp) {
    o.item < |d.items| && (o.warehouse.Some? ==> o.warehouse.value < |d.warehouses|)
  }

  ghost predicate WellFormed(d: Docs) {
    && (forall i {:trigger ItemOk(d.items[i])} :: 0 <= i < |d.items| ==> ItemOk(d.items[i]))
    && (forall id :: 0 <= id < |d.txns| ==> TxnOk(d, id))
    && (forall id {:trigger HomeOk(d, d.txns[id])} :: 0 <= id < |d.txns| ==> HomeOk(d, d.txns[id]))
    && (forall k {:trigger PayOk(d, d.pays[k])} :: 0 <= k < |d.pays| ==> PayOk(d, d.pays[k]))
    && (forall k {:trigger AllocOk(d, d.allocs[k])} :: 0 <= k < |d.allocs| ==> AllocOk(d, d.allocs[k]))
    && (forall k {:trigger OpOk(d, d.stockOps[k])} :: 0 <= k < |d.stockOps| ==> OpOk(d, d.stockOps[k]))
    && (forall k :: 0 <= k < |d.loans| ==> d.loans[k].account < |d.accounts|)
    && (forall k {:trigger TransferOk(d, d.transfers[k])} :: 0 <= k < |d.transfers| ==> TransferOk(d, d.transfers[k]))
  }

  ghost predicate TransferOk(d: Docs, x: Transfer) {
    (NeedsFrom(x.kind) ==> x.from.Some? && x.from.value < |d.accounts|)
    && (NeedsTo(x.kind) ==> x.to.Some? && x.to.value < |d.accounts|)
  }

  // ----- Columns that agree with the rows -----

  function LevelAt(levels: map<(nat, nat), real>, i: nat, w: nat): real {
    if (i, w) in levels then levels[(i, w)] else 0.0
  }

  ghost predicate StockAgrees(d: Docs, stock: seq<real>, levels: map<(nat, nat), real>) {
    && |stock| == |d.items|
    && (forall i: nat :: i < |stock| ==> stock[i] == StockDue(d, i))
    && (forall i: nat, w: nat :: LevelAt(levels, i, w) == LevelDue(d, i, w))
  }

  ghost predicate PartiesAgree(d: Docs, dues: seq<real>) {
    && |dues| == |d.parties|
    && (forall p: nat :: p < |dues| ==> dues[p] == PartyDue(d, p))
  }

  ghost predicate MoneyAgrees(d: Docs, balances: seq<real>) {
    && |balances| == |d.accounts|
    && (forall a: nat :: a < |balances| ==> balances[a] == AccountDue(d, a))
  }

  ghost predicate BillsAgree(d: Docs, paid: seq<real>, owed: seq<real>) {
    && |paid| == |owed| == |d.txns|
    && (forall x: nat :: x < |paid| ==> paid[x] == PaidDue(d, x) && owed[x] == d.txns[x].total - paid[x])
  }

  /** One line of a party's ledger: the signed change and the balance shown after it. */
  datatype Entry = Entry(party: nat, branch: Option<nat>, amount: real, balance: real)

  /** The lines a ledger gained all carry this branch. */
  predicate LedgerBranch(before: seq<Entry>, after: seq<Entry>, branch: Option<nat>) {
    before <= after && forall k :: |before| <= k < |after| ==> after[k].branch == branch
  }

  function EntryAmount(p: nat): Entry -> real { (e: Entry) => if e.party == p then e.amount else 0.0 }

  /** Every balance shown is the sum of that party's entries so far, and the sum of them all is
      what the party row says. */
  ghost predicate LedgerAgrees(dues: seq<real>, ledger: seq<Entry>) {
    && (forall p: nat :: p < |dues| ==> dues[p] == Sum(ledger, EntryAmount(p)))
    && (forall k :: 0 <= k < |ledger| ==> EntryOk(dues, ledger, k))
  }

  ghost predicate EntryOk(dues: seq<real>, ledger: seq<Entry>, k: nat)
    requires k < |ledger|
  {
    ledger[k].party < |dues| && ledger[k].balance == Sum(ledger[..k + 1], EntryAmount(ledger[k].party))
  }

  datatype Movement = Movement(item: nat, warehouse: nat, quantity: real)

  function MoveAmount(i: nat, w: nat): Movement -> real {
    (m: Movement) => if m.item == i && m.warehouse == w then m.quantity else 0.0
  }

  /** Every stock level is the sum of its recorded movements. */
  ghost predicate MovementsAgree(levels: map<(nat, nat), real>, movements: seq<Movement>) {
    forall i: nat, w: nat :: LevelAt(levels, i, w) == Sum(movements, MoveAmount(i, w))
  }

  // ----- Verify my data -----

  function Gap(a: real, b: real): real { if a > b then a - b else b - a }

  /** What a check looks at: everything, or one shop by the shop columns of parties, items and levels. */
  datatype Scope = Scope(shop: Option<nat>, parties: seq<Option<nat>>, items: seq<Option<nat>>,
                         levels: map<(nat, nat), Option<nat>>)

  predicate InScope(c: Scope, branch: Option<nat>) { c.shop.None? || branch == c.shop }

  function ShopOf(shops: seq<Option<nat>>, k: nat): Option<nat> { if k < |shops| then shops[k] else None }

  function EntryIn(c: Scope, p: nat): Entry -> real {
    (e: Entry) => if e.party == p && InScope(c, e.branch) then e.amount else 0.0
  }

  function LevelIn(levels: map<(nat, nat), real>, c: Scope, i: nat, w: nat): real {
    if InScope(c, if (i, w) in c.levels then c.levels[(i, w)] else None) then LevelAt(levels, i, w) else 0.0
  }

  /** An item's stock in scope added up over the first n warehouses. */
  function LevelSum(levels: map<(nat, nat), real>, c: Scope, i: nat, n: nat): real {
    if n == 0 then 0.0 else LevelSum(levels, c, i, n - 1) + LevelIn(levels, c, i, n - 1)
  }

  predicate IsBill(t: Txn) { !t.deleted && (t.kind.SaleInvoice? || t.kind.PurchaseBill?) && !t.status.Held? }

  datatype Issue =
    | PartyIssue(party: nat, expected: real, actual: real)
    | ItemIssue(item: nat, expected: real, actual: real)
    | TxnIssue(txn: nat, expected: real, actual: real)

  predicate PartyDrifts(ledger: seq<Entry>, dues: seq<real>, c: Scope, p: nat)
    requires p < |dues|
  {
    InScope(c, ShopOf(c.parties, p)) && Gap(Sum(ledger, EntryIn(c, p)), dues[p]) > 0.01
  }

  predicate ItemDrifts(d: Docs, levels: map<(nat, nat), real>, stock: seq<real>, c: Scope, i: nat)
    requires i < |stock| == |d.items|
  {
    d.items[i].trackStock && InScope(c, ShopOf(c.items, i))
    && Gap(LevelSum(levels, c, i, |d.warehouses|), stock[i]) > 0.001
  }

  predicate TxnDrifts(d: Docs, paid: seq<real>, owed: seq<real>, c: Scope, x: nat)
    requires x < |paid| == |owed| == |d.txns|
  {
    IsBill(d.txns[x]) && InScope(c, d.txns[x].branch) && Gap(d.txns[x].total, paid[x] + owed[x]) > 0.01
  }

  ghost predicate NoDrift(d: Docs, ledger: seq<Entry>, levels: map<(nat, nat), real>, paid: seq<real>,
                          dues: seq<real>, stock: seq<real>, owed: seq<real>, c: Scope)
    requires |stock| == |d.items| && |paid| == |owed| == |d.txns|
  {
    && (forall p: nat :: p < |dues| ==> !PartyDrifts(ledger, dues, c, p))
    && (forall i: nat :: i < |stock| ==> !ItemDrifts(d, levels, stock, c, i))
    && (forall x: nat :: x < |owed| ==> !TxnDrifts(d, paid, owed, c, x))
  }

  // ----- What a fix writes -----

  function PartyFixed(ledger: seq<Entry>, dues: seq<real>, c: Scope, p: nat): real
    requires p < |dues|
  {
    if PartyDrifts(ledger, dues, c, p) then Sum(ledger, EntryIn(c, p)) else dues[p]
  }

  function ItemFixed(d: Docs, levels: map<(nat, nat), real>, stock: seq<real>, c: Scope, i: nat): real
    requires i < |stock| == |d.items|
  {
    if ItemDrifts(d, levels, stock, c, i) then LevelSum(levels, c, i, |d.warehouses|) else stock[i]
  }
}
