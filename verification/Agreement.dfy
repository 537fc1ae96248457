/** How the derived stores agree with one another. */
module Agreement {
  import opened Wrappers
  import opened Sums
  import opened Books
  import opened Laws
  import opened Soundness

  // ----- Control account and sub-ledger -----

  function Owed(d: Docs, x: nat): real
    requires x < |d.txns|
  {
    d.txns[x].total - PaidDue(d, x)
  }

  function GaveTo(x: nat): Alloc -> real {
    (a: Alloc) => if a.pay == x then Weigh(a.net, a.amount) else 0.0
  }

  /** The part of a payment not allocated to any bill. */
  function Unallocated(d: Docs, x: nat): real
    requires x < |d.txns|
  {
    d.txns[x].total - Sum(d.allocs, GaveTo(x))
  }

  /** A live document's open amount as it should stand in its party's account. */
  function OpenItem(d: Docs, p: nat): nat -> real {
    (x: nat) =>
      if x >= |d.txns| || !Live(d.txns[x]) then 0.0
      else if d.txns[x].kind.P2PTransfer? then PartyShift(d.txns[x], p, 0.0)
      else if d.txns[x].party != Some(p) then 0.0
      else match d.txns[x].kind
        case SaleInvoice | DebitNote => Owed(d, x)
        case PurchaseBill | CreditNote => -Owed(d, x)
        case PaymentIn => -Unallocated(d, x)
        case PaymentOut => Unallocated(d, x)
        case _ => 0.0
  }

  /** The sign an open amount of this document has in party p's account. */
  function Side(d: Docs, p: nat, x: nat): int {
    if x >= |d.txns| || !Live(d.txns[x]) || d.txns[x].party != Some(p) then 0
    else match d.txns[x].kind
      case SaleInvoice | DebitNote | PaymentOut => 1
      case PurchaseBill | CreditNote | PaymentIn => -1
      case _ => 0
  }

  /** What one allocation row takes off its bill's side and off its payment's side.  The two cancel
      unless it carries a discount or crosses parties or touches a document that does not count. */
  function Mismatch(d: Docs, p: nat): Alloc -> real {
    (a: Alloc) =>
      Directed(Side(d, p, a.against), Weigh(a.net, a.amount + a.discount))
      + Directed(Side(d, p, a.pay), Weigh(a.net, a.amount))
  }

  function BillSide(d: Docs, p: nat, as_: seq<Alloc>): nat -> real {
    (x: nat) => Directed(Side(d, p, x), Sum(as_, AllocPaid(x)))
  }

  function PaySide(d: Docs, p: nat, as_: seq<Alloc>): nat -> real {
    (x: nat) => Directed(Side(d, p, x), Sum(as_, GaveTo(x)))
  }

  lemma BillSideStep(d: Docs, p: nat, as_: seq<Alloc>)
    requires |as_| > 0 && as_[|as_| - 1].against < |d.txns|
    ensures var n, a := |as_| - 1, as_[|as_| - 1];
            Over(|d.txns|, BillSide(d, p, as_))
            == Over(|d.txns|, BillSide(d, p, as_[..n]))
               + Directed(Side(d, p, a.against), Weigh(a.net, a.amount + a.discount))
  {
    var n, a := |as_| - 1, as_[|as_| - 1];
    var taken := Directed(Side(d, p, a.against), Weigh(a.net, a.amount + a.discount));
    var last := (x: nat) => if x == a.against then taken else 0.0;
    OverPlus(|d.txns|, BillSide(d, p, as_), BillSide(d, p, as_[..n]), last);
    OverSpike(|d.txns|, a.against, last, taken);
  }

  lemma PaySideStep(d: Docs, p: nat, as_: seq<Alloc>)
    requires |as_| > 0 && as_[|as_| - 1].pay < |d.txns|
    ensures var n, a := |as_| - 1, as_[|as_| - 1];
            Over(|d.txns|, PaySide(d, p, as_))
            == Over(|d.txns|, PaySide(d, p, as_[..n])) + Directed(Side(d, p, a.pay), Weigh(a.net, a.amount))
  {
    var n, a := |as_| - 1, as_[|as_| - 1];
    var given := Directed(Side(d, p, a.pay), Weigh(a.net, a.amount));
    var last := (x: nat) => if x == a.pay then given else 0.0;
    OverPlus(|d.txns|, PaySide(d, p, as_), PaySide(d, p, as_[..n]), last);
    OverSpike(|d.txns|, a.pay, last, given);
  }

  /** Adding up allocations bill by bill and payment by payment is adding them up row by row. */
  lemma {:induction false} AllocationsBothWays(d: Docs, p: nat, as_: seq<Alloc>)
    requires forall k :: 0 <= k < |as_| ==> as_[k].pay < |d.txns| && as_[k].against < |d.txns|
    ensures Over(|d.txns|, BillSide(d, p, as_)) + Over(|d.txns|, PaySide(d, p, as_)) == Sum(as_, Mismatch(d, p))
  {
    if |as_| == 0 {
      OverZero(|d.txns|, BillSide(d, p, as_));
      OverZero(|d.txns|, PaySide(d, p, as_));
    } else {
      AllocationsBothWays(d, p, as_[..|as_| - 1]);
      BillSideStep(d, p, as_);
      PaySideStep(d, p, as_);
    }
  }

  /** A payment is never itself a bill, and a bill never makes allocations. */
  lemma OneRole(d: Docs, x: nat)
    requires WellFormed(d) && x < |d.txns|
    ensures IsPayment(d.txns[x].kind) ==> Sum(d.allocs, AllocPaid(x)) == 0.0
    ensures !IsPayment(d.txns[x].kind) ==> Sum(d.allocs, GaveTo(x)) == 0.0
  {
    forall k | 0 <= k < |d.allocs|
      ensures IsPayment(d.txns[x].kind) ==> AllocPaid(x)(d.allocs[k]) == 0.0
      ensures !IsPayment(d.txns[x].kind) ==> GaveTo(x)(d.allocs[k]) == 0.0
    {
      assert AllocOk(d, d.allocs[k]);
    }
    if IsPayment(d.txns[x].kind) { SumZero(d.allocs, AllocPaid(x)); } else { SumZero(d.allocs, GaveTo(x)); }
  }

  /** One live document's effect on a balance: its open item and what its allocations took off. */
  lemma OpenItemOf(d: Docs, p: nat, x: nat)
    requires WellFormed(d) && x < |d.txns| && Straight(d.txns[x])
    ensures LiveParty(p)(d.txns[x]) == OpenItem(d, p)(x) + (BillSide(d, p, d.allocs)(x) + PaySide(d, p, d.allocs)(x))
  {
    OneRole(d, x);
  }

  /**
    A party's balance is its opening balance plus its open items: unpaid invoices and debit notes,
    less unpaid bills and credit notes, less unallocated receipts, plus unallocated payments out,
    and its transfers; off by exactly what its allocations fail to cancel.
  */
  lemma ControlAccount(d: Docs, p: nat)
    requires WellFormed(d) && Sound(d) && p < |d.parties|
    requires forall k :: 0 <= k < |d.txns| ==> Straight(d.txns[k])
    ensures PartyDue(d, p) == d.parties[p] + Over(|d.txns|, OpenItem(d, p)) + Sum(d.allocs, Mismatch(d, p))
  {
    var n := |d.txns|;
    var bills, pays := BillSide(d, p, d.allocs), PaySide(d, p, d.allocs);
    var both := (x: nat) => bills(x) + pays(x);
    var live := (x: nat) => OpenItem(d, p)(x) + both(x);
    forall x: nat | x < n ensures LiveParty(p)(d.txns[x]) == live(x) { OpenItemOf(d, p, x); }
    SumIsOver(d.txns, LiveParty(p), live);
    OverPlus(n, live, OpenItem(d, p), both);
    OverPlus(n, both, bills, pays);
    forall k | 0 <= k < |d.allocs|
      ensures d.allocs[k].pay < n && d.allocs[k].against < n
    {
      assert AllocOk(d, d.allocs[k]);
    }
    AllocationsBothWays(d, p, d.allocs);
    SoundTotals(d, 0, p);
  }

  /** The allocation carries no discount, goes to a live posted bill, and its payment names a party. */
  predicate CleanAllocation(d: Docs, a: Alloc)
    requires a.pay < |d.txns| && a.against < |d.txns|
  {
    a.discount == 0.0 && Live(d.txns[a.against]) && d.txns[a.pay].party.Some?
  }

  /** With clean allocations the control account equals the sub-ledger exactly. */
  lemma ControlEqualsSubledger(d: Docs, p: nat)
    requires WellFormed(d) && Sound(d) && p < |d.parties|
    requires forall k :: 0 <= k < |d.txns| ==> Straight(d.txns[k])
    requires forall k {:trigger CleanAllocation(d, d.allocs[k])} :: 0 <= k < |d.allocs|
               ==> AllocOk(d, d.allocs[k]) && CleanAllocation(d, d.allocs[k])
    ensures PartyDue(d, p) == d.parties[p] + Over(|d.txns|, OpenItem(d, p))
  {
    ControlAccount(d, p);
    forall k | 0 <= k < |d.allocs| ensures Mismatch(d, p)(d.allocs[k]) == 0.0 {
      var a := d.allocs[k];
      assert AllocOk(d, a) && CleanAllocation(d, a) && Counted(d.txns[a.pay]);
    }
    SumZero(d.allocs, Mismatch(d, p));
  }

  // ----- Account statement -----

  /** The statement's line for a payment row, a settled cheque, or a transfer; loans are not on it. */
  function StatementPay(d: Docs, a: nat): Pay -> real {
    (r: Pay) =>
      (if r.account == Some(a) && r.txn < |d.txns| && !d.txns[r.txn].deleted then Signed(r) else 0.0)
      + (if r.slip == ClosedSlip(a) then Signed(r) else 0.0)
  }

  function StatementTransfer(a: nat): Transfer -> real {
    (x: Transfer) => (if x.from == Some(a) then -x.amount else 0.0) + (if x.to == Some(a) then x.amount else 0.0)
  }

  function StatementTotal(d: Docs, a: nat): real {
    Sum(d.pays, StatementPay(d, a)) + Sum(d.transfers, StatementTransfer(a))
  }

  /** The row's money is on its own account exactly when its document is live. */
  predicate InStep(d: Docs, r: Pay)
    requires r.txn < |d.txns|
  {
    r.tender.Cheque? || (r.account.Some? && r.net == (if d.txns[r.txn].deleted then 0 else 1))
  }

  /** A one-sided correction names only the account it moves. */
  predicate Tidy(x: Transfer) { (x.from.Some? ==> NeedsFrom(x.kind)) && (x.to.Some? ==> NeedsTo(x.kind)) }

  /** How often the row is on the statement, less how often its money moved, at the account it is shown at
      or, for a row that names none, at the one its money moved at. */
  function RowGap(d: Docs, a: nat): Pay -> real {
    (r: Pay) =>
      if r.tender.Cheque? || Target(d.accounts, r) != Some(a) then 0.0
      else Weigh((if r.account.Some? && r.txn < |d.txns| && !d.txns[r.txn].deleted then 1 else 0) - r.net, Signed(r))
  }

  /** What a one-sided correction says of an account it did not move. */
  function TransferGap(a: nat): Transfer -> real {
    (x: Transfer) =>
      (if x.from == Some(a) && !NeedsFrom(x.kind) then -x.amount else 0.0)
      + (if x.to == Some(a) && !NeedsTo(x.kind) then x.amount else 0.0)
  }

  /** In every well-formed state a statement is off from the balance, less opening and loan legs, by exactly
      the rows that are out of step and the corrections that name an account they did not move. */
  lemma StatementOff(d: Docs, a: nat)
    requires WellFormed(d) && a < |d.accounts|
    ensures StatementTotal(d, a) == AccountDue(d, a) - d.accounts[a].opening - Sum(d.loans, LoanMoney(a))
                                    + Sum(d.pays, RowGap(d, a)) + Sum(d.transfers, TransferGap(a))
  {
    forall k | 0 <= k < |d.pays|
      ensures StatementPay(d, a)(d.pays[k]) == PayMoney(d.accounts, a)(d.pays[k]) + RowGap(d, a)(d.pays[k])
    {
      RowOff(d, a, k);
    }
    SumPlus(d.pays, d.pays, d.pays, StatementPay(d, a), PayMoney(d.accounts, a), RowGap(d, a));
    SumPlus(d.transfers, d.transfers, d.transfers, StatementTransfer(a), TransferMoney(a), TransferGap(a));
  }

  lemma RowOff(d: Docs, a: nat, k: nat)
    requires WellFormed(d) && k < |d.pays|
    ensures StatementPay(d, a)(d.pays[k]) == PayMoney(d.accounts, a)(d.pays[k]) + RowGap(d, a)(d.pays[k])
  {
    var r := d.pays[k];
    assert PayOk(d, r) && PayRefs(d.accounts, r);
    var shown := if r.account.Some? && !d.txns[r.txn].deleted then 1 else 0;
    WeighDifference(shown, r.net, Signed(r));
    assert Weigh(1, Signed(r)) == Signed(r) && Weigh(0, Signed(r)) == 0.0;
  }

  lemma {:induction false} WeighDifference(m: int, n: int, x: real)
    ensures Weigh(m - n, x) == Weigh(m, x) - Weigh(n, x)
    decreases if n < 0 then -n else n
  {
    WeighStep(m - n, x);
    WeighStep(n, x);
    if n > 0 { WeighDifference(m, n - 1, x); } else if n < 0 { WeighDifference(m, n + 1, x); }
  }

  /** So it explains the balance when every row is in step and every correction tidy. */
  lemma StatementExplainsBalance(d: Docs, a: nat)
    requires WellFormed(d) && a < |d.accounts|
    requires forall k :: 0 <= k < |d.pays| ==> d.pays[k].txn < |d.txns| && InStep(d, d.pays[k])
    requires forall k :: 0 <= k < |d.transfers| ==> Tidy(d.transfers[k])
    ensures StatementTotal(d, a) == AccountDue(d, a) - d.accounts[a].opening - Sum(d.loans, LoanMoney(a))
  {
    StatementOff(d, a);
    forall k | 0 <= k < |d.pays| ensures RowGap(d, a)(d.pays[k]) == 0.0 { assert InStep(d, d.pays[k]); }
    SumZero(d.pays, RowGap(d, a));
    forall k | 0 <= k < |d.transfers| ensures TransferGap(a)(d.transfers[k]) == 0.0 { assert Tidy(d.transfers[k]); }
    SumZero(d.transfers, TransferGap(a));
  }

  // ----- Item stock and warehouse levels -----

  function LevelOver(d: Docs, i: nat): nat -> real { (w: nat) => LevelDue(d, i, w) }

  /** Stock changes the item counts and no warehouse does, less those only a warehouse counts. */
  function OpGap(i: nat): StockOp -> real {
    (o: StockOp) => if o.item != i then 0.0
                    else (if o.counted then o.quantity else 0.0) - (if o.warehouse.Some? then o.quantity else 0.0)
  }

  function Branchless(items: seq<Item>, i: nat): Txn -> real {
    (t: Txn) => if t.branch.None? then TxnStock(items, i)(t) else 0.0
  }

  /** Stock that is on the item but at no warehouse. */
  function Unplaced(d: Docs, i: nat): real {
    Sum(d.stockOps, OpGap(i)) + Sum(d.txns, Branchless(d.items, i))
  }

  lemma {:induction false} OpsByWarehouse(os: seq<StockOp>, n: nat, i: nat)
    requires forall k :: 0 <= k < |os| && os[k].warehouse.Some? ==> os[k].warehouse.value < n
    ensures Sum(os, OpStock(i)) == Over(n, (w: nat) => Sum(os, OpLevel(i, w))) + Sum(os, OpGap(i))
  {
    var levels := (w: nat) => Sum(os, OpLevel(i, w));
    if |os| == 0 {
      OverZero(n, levels);
    } else {
      var init, o := os[..|os| - 1], os[|os| - 1];
      OpsByWarehouse(init, n, i);
      var before := (w: nat) => Sum(init, OpLevel(i, w));
      var last := (w: nat) => OpLevel(i, w)(o);
      OverPlus(n, levels, before, last);
      if o.warehouse.Some? && o.item == i {
        OverSpike(n, o.warehouse.value, last, o.quantity);
      } else {
        OverZero(n, last);
      }
    }
  }

  lemma {:induction false} TxnsByWarehouse(d: Docs, ts: seq<Txn>, i: nat)
    requires |d.warehouses| > 0
    requires forall k :: 0 <= k < |ts| ==> HomeOk(d, ts[k])
    ensures Sum(ts, TxnStock(d.items, i))
            == Over(|d.warehouses|, (w: nat) => Sum(ts, TxnLevel(d.items, d.warehouses, i, w)))
               + Sum(ts, Branchless(d.items, i))
  {
    var n := |d.warehouses|;
    var levels := (w: nat) => Sum(ts, TxnLevel(d.items, d.warehouses, i, w));
    if |ts| == 0 {
      OverZero(n, levels);
    } else {
      var init, t := ts[..|ts| - 1], ts[|ts| - 1];
      TxnsByWarehouse(d, init, i);
      var before := (w: nat) => Sum(init, TxnLevel(d.items, d.warehouses, i, w));
      var last := (w: nat) => TxnLevel(d.items, d.warehouses, i, w)(t);
      OverPlus(n, levels, before, last);
      LastTxnByWarehouse(d, t, i, last);
    }
  }

  lemma LastTxnByWarehouse(d: Docs, t: Txn, i: nat, last: nat -> real)
    requires |d.warehouses| > 0 && HomeOk(d, t)
    requires forall w: nat :: last(w) == TxnLevel(d.items, d.warehouses, i, w)(t)
    ensures TxnStock(d.items, i)(t) == Over(|d.warehouses|, last) + Branchless(d.items, i)(t)
  {
    if t.branch.Some? && Home(d.warehouses, t.branch.value).Some? {
      OverSpike(|d.warehouses|, Home(d.warehouses, t.branch.value).value, last, TxnStock(d.items, i)(t));
    } else {
      OverZero(|d.warehouses|, last);
      if t.branch.Some? {
        if !HasTracked(d.items, t.lines) { NoTrackedNoDemand(d.items, t.lines, i); }
        WeighZero(t.net);
      }
    }
  }

  /** An item's stock is the sum of its levels and what was never placed: so the two agree exactly
      when nothing is unplaced. */
  lemma StockIsLevelsPlusUnplaced(d: Docs, i: nat)
    requires WellFormed(d) && |d.warehouses| > 0
    ensures StockDue(d, i) == Over(|d.warehouses|, LevelOver(d, i)) + Unplaced(d, i)
  {
    forall k | 0 <= k < |d.stockOps| && d.stockOps[k].warehouse.Some?
      ensures d.stockOps[k].warehouse.value < |d.warehouses|
    {
      assert OpOk(d, d.stockOps[k]);
    }
    OpsByWarehouse(d.stockOps, |d.warehouses|, i);
    TxnsByWarehouse(d, d.txns, i);
    OverPlus(|d.warehouses|, LevelOver(d, i), (w: nat) => Sum(d.stockOps, OpLevel(i, w)),
             (w: nat) => Sum(d.txns, TxnLevel(d.items, d.warehouses, i, w)));
  }
}
