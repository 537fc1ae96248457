/**
  Concrete runs in which the books do not come back, one for each condition found elsewhere.

  The first is a sale whose cash falls into another branch's till and stays there, the next a held bill
  that is deleted and then charged; then a bill whose hold is lifted by converting it or by marking it
  as refunded, and last a held bill charged with a negative payment.
*/
module Boundaries {
  import opened Wrappers
  import opened Sums
  import opened Books
  import opened Steps
  import opened Runs
  import opened Recycle
  import opened History
  import opened Soundness
  import opened Agreement

  /** A shop whose only cash till belongs to branch 1. */
  const SHOP := Docs([], [], [], [Account(Some(1), CashTill, 0.0)], [], [], [], [], [], [])

  /** Ten in cash, at this branch. */
  function CashSale(branch: nat): Draft {
    Draft(SaleInvoice, Some(branch), None, None, [Line(None, 1.0, "")], 10.0, [PayIn(Cash, None, 10.0)], [], None,
          None)
  }

  function SoldTxn(branch: nat): Txn {
    Txn(SaleInvoice, Some(branch), None, None, [Line(None, 1.0, "")], 10.0, 10.0, 10.0, None, Paid, false, true, 1)
  }

  function Sold(branch: nat): Docs {
    SHOP.(txns := [SoldTxn(branch)], pays := [Pay(0, true, Cash, Some(0), 10.0, 1, NoSlip)])
  }

  lemma OnePayment(p: PayIn)
    ensures Kept([p]) == if p.amount > 0.0 then [p] else []
    ensures Sum([p], NonDebt()) == NonDebt()(p) && Sum([p], RowPart()) == RowPart()(p)
  {
    assert [p][..0] == [];
    SumOne(p, NonDebt());
    SumOne(p, RowPart());
  }

  const CASH := PayIn(Cash, None, 10.0)

  lemma OneTender(id: nat, kind: Kind, branch: Option<nat>, p: PayIn, accounts: seq<Account>, pays: seq<Pay>)
    ensures TenderAll(id, kind, branch, [p], accounts, pays) == TenderOne(id, kind, branch, p, accounts, pays)
  {
    var ps := [p];
    assert ps[..0] == [];
    assert TenderAll(id, kind, branch, ps[..0], accounts, pays) == (accounts, pays);
  }

  lemma CashGoesElsewhere()
    ensures TenderOne(0, SaleInvoice, Some(2), CASH, SHOP.accounts, []) == (SHOP.accounts, Sold(2).pays)
  {
    assert FirstTill(SHOP.accounts, CashTill, Some(2)) == None;
    assert FirstTill(SHOP.accounts, CashTill, None) == Some(0);
    assert Land(SHOP.accounts, Some(2), CASH) == (SHOP.accounts, Some(0));
    assert [] + Sold(2).pays == Sold(2).pays;
  }

  lemma SaleIsAllowed()
    ensures WellFormed(SHOP) && CreateOk(SHOP, CashSale(2))
            && NewTxn(CashSale(2)) == SoldTxn(2).(settled := 0.0, posted := false, net := 0)
  {
    OnePayment(CASH);
    hide Kept, Sum;
  }

  function Unposted(): Docs { SHOP.(txns := [SoldTxn(2).(settled := 0.0, posted := false, net := 0)]) }

  lemma PostingElsewhere()
    ensures Post(Unposted(), 0, [CASH], []) == Sold(2)
  {
    var d, d' := Unposted(), Post(Unposted(), 0, [CASH], []);
    SumOne(CASH, RowPart());
    CashGoesElsewhere();
    OneTender(0, SaleInvoice, Some(2), CASH, SHOP.accounts, []);
    assert WarehousesAfter(d, d.txns[0]) == [];
    assert d'.allocs == [];
    assert d'.txns == [SoldTxn(2)];
  }

  /** A sale at branch 2, which has no till of its own, puts its cash into branch 1's till. */
  lemma SaleElsewhere()
    ensures CreateOk(SHOP, CashSale(2)) && Create(SHOP, CashSale(2)) == Sold(2)
  {
    SaleIsAllowed();
    PostingElsewhere();
    OnePayment(CASH);
    hide Post, WellFormed, Kept;
    assert Inserted(SHOP, CashSale(2)) == Unposted();
  }

  lemma DeletedSaleLeavesCash()
    ensures DeleteOk(Sold(2), 0)
    ensures var after := Delete(Sold(2), 0);
            after.txns[0].deleted && after.accounts == SHOP.accounts && SHOP.accounts[0].opening == 0.0
            && AccountDue(after, 0) == 10.0
  {
    var d := Sold(2);
    var row := d.pays[0];
    var after := Delete(d, 0);
    assert UndoPay(d.accounts, Some(2), row) == row;
    assert after.pays == [row] && after.accounts == SHOP.accounts;
    assert PayMoney(after.accounts, 0)(row) == 10.0 by { assert Weigh(1, 10.0) == 10.0; }
    SumOne(row, PayMoney(after.accounts, 0));
  }

  /** Deleting that sale looks for the till within branch 2, does not find it there, and leaves the
      cash where it is. */
  lemma CashOfAnotherBranchStays()
    ensures CreateOk(SHOP, CashSale(2)) && Create(SHOP, CashSale(2)) == Sold(2)
    ensures DeleteOk(Sold(2), 0)
    ensures var after := Delete(Sold(2), 0);
            after.txns[0].deleted && after.accounts == SHOP.accounts && SHOP.accounts[0].opening == 0.0
            && AccountDue(after, 0) == 10.0
  {
    SaleElsewhere();
    DeletedSaleLeavesCash();
  }

  // ----- A held bill thrown away and then charged -----

  const HOLD := Draft(SaleInvoice, None, None, None, [Line(None, 1.0, "")], 10.0, [], [], Some(Held), None)

  function HeldTxn(deleted: bool): Txn {
    Txn(SaleInvoice, None, None, None, [Line(None, 1.0, "")], 10.0, 0.0, 0.0, None, Held, deleted, false, 0)
  }

  /** Charging looks only at the status of a held bill, not at whether it was deleted: its effects
      are then in the books although it is in the recycle bin. */
  lemma DeletedHoldIsCharged()
    ensures CreateOk(SHOP, HOLD) && DeleteOk(Create(SHOP, HOLD), 0)
            && ResumeOk(Delete(Create(SHOP, HOLD), 0), 0, None, [])
    ensures var t := Resume(Delete(Create(SHOP, HOLD), 0), 0, None, []).txns[0]; t.deleted && t.net == 1 && !Counted(t)
  {
    assert Kept([]) == [];
    assert Create(SHOP, HOLD).txns == [HeldTxn(false)];
    var d := Delete(Create(SHOP, HOLD), 0);
    assert d.txns == [HeldTxn(true)];
    assert !HasTracked(SHOP.items, HOLD.lines);
    assert TargetsIn([])(0) == false;
  }

  // ----- A held bill converted, or marked as refunded -----

  /** A shop with one customer, who has a bill of ten on hold. */
  function OnHold(status: Status): Docs {
    SHOP.(parties := [0.0],
          txns := [Txn(SaleInvoice, None, Some(0), None, [Line(None, 1.0, "")], 10.0, 0.0, 0.0, None, status, false,
                       false, 0)])
  }

  lemma OnHoldIsWellFormed()
    ensures WellFormed(OnHold(Held)) && Sound(OnHold(Held))
  {
  }

  /** Converting asks neither for the kind nor for the status of its source, and marking a returned
      invoice does not ask for its status: either lifts the hold, nothing is posted, and the customer's
      open items are ten more than the balance. */
  lemma HoldsAreLifted(st: Step)
    requires st == DoClaim(0, None) || st == DoMark(0)
    ensures WellFormed(OnHold(Held)) && Sound(OnHold(Held))
    ensures var d, d' := OnHold(Held), Next(OnHold(Held), st);
            && Allowed(d, st) && !Orderly(d, st)
            && d'.txns[0].status == (if st.DoClaim? then OrderClosed else Refunded)
            && !Sound(d')
            && PartyDue(d', 0) == 0.0 && Over(1, OpenItem(d', 0)) == 10.0
  {
    var d' := Next(OnHold(Held), st);
    var t := d'.txns[0];
    assert Live(t) && t.net == 0 && !Counted(t);
    SumOne(t, TxnParty(0));
    assert PaidDue(d', 0) == 0.0;
    assert OpenItem(d', 0)(0) == 10.0;
    assert Over(0, OpenItem(d', 0)) == 0.0;
    OnHoldIsWellFormed();
  }

  // ----- A held bill charged with a negative payment -----

  const REFUND := PayIn(Cash, None, -5.0)

  function ChargedBill(deleted: bool): Docs {
    OnHold(Open).(txns := [Txn(SaleInvoice, None, Some(0), None, [Line(None, 1.0, "")], 10.0, -5.0, 0.0, None, Open,
                               deleted, true, if deleted then 0 else 1)])
  }

  lemma NegativeChargeIsAccepted()
    ensures ResumeOk(OnHold(Held), 0, None, [REFUND]) && !NoneNegative([REFUND])
    ensures Resume(OnHold(Held), 0, None, [REFUND]) == ChargedBill(false)
  {
    var d := Charged(OnHold(Held), 0, None, [REFUND]);
    SumOne(REFUND, NonDebt());
    SumOne(REFUND, RowPart());
    OneTender(0, SaleInvoice, None, REFUND, d.accounts, []);
    hide Sum, TenderAll;
    assert !HasTracked(d.items, d.txns[0].lines);
    assert Resume(OnHold(Held), 0, None, [REFUND]).txns == ChargedBill(false).txns;
    assert [REFUND][0].amount < 0.0;
  }

  /** The negative payment makes the bill fifteen open; it leaves no row, so deleting the bill takes
      back only ten, and the customer still owes five. */
  lemma NegativeChargeStays()
    ensures ResumeOk(OnHold(Held), 0, None, [REFUND]) && Resume(OnHold(Held), 0, None, [REFUND]) == ChargedBill(false)
    ensures PartyDue(ChargedBill(false), 0) == 15.0
    ensures DeleteOk(ChargedBill(false), 0) && Delete(ChargedBill(false), 0) == ChargedBill(true)
    ensures PartyDue(ChargedBill(true), 0) == 5.0 && PartyDue(Without(ChargedBill(false), 0), 0) == 0.0
  {
    var live, gone := ChargedBill(false).txns[0], ChargedBill(true).txns[0];
    assert Weigh(1, 10.0) == 10.0 && Weigh(0, 10.0) == 0.0;
    SumOne(live, TxnParty(0));
    SumOne(gone, TxnParty(0));
    SumOne(Blank(live), TxnParty(0));
    assert Without(ChargedBill(false), 0).txns == [Blank(live)];
    assert Delete(ChargedBill(false), 0).txns == [gone];
    NegativeChargeIsAccepted();
  }

  // ----- A hold given back to a charged bill -----

  /** The same customer and bill, of one piece of a service; charged this many times. */
  function Served(status: Status, times: nat): Docs {
    SHOP.(items := [Item(false, true, "", None)], parties := [0.0],
          txns := [Txn(SaleInvoice, None, Some(0), None, [PIECE], 10.0, 0.0, 0.0, None, status, false, times > 0,
                       times)])
  }

  const PIECE := Line(Some(0), 1.0, "")
  const HALF := Line(Some(0), 0.5, "")

  lemma NoStockAsked(d: Docs)
    requires d.items == [Item(false, true, "", None)]
    ensures StockFits(d, SaleInvoice, [PIECE])
  {
    SumOne(PIECE, LineDemand(d.items, 0));
  }

  lemma ChargeAgain(times: nat)
    ensures ResumeOk(Served(Held, times), 0, None, [])
    ensures Resume(Served(Held, times), 0, None, []) == Served(Open, times + 1)
  {
    var d := Charged(Served(Held, times), 0, None, []);
    NoStockAsked(d);
    hide StockFits;
    assert !HasTracked(d.items, d.txns[0].lines);
    assert Resume(Served(Held, times), 0, None, []).txns == Served(Open, times + 1).txns;
  }

  lemma HalfLeavesHold()
    ensures ClaimOk(Served(Held, 0), 0) && Claim(Served(Held, 0), 0, Some([HALF])) == Served(Held, 0)
  {
    var d := Served(Held, 0);
    SumOne(d.txns[0], ReceivedIn(0, 0));
    SumOne(HALF, ItemQuantity(0));
    assert !LineCovered(d, 0, [HALF], d.txns[0].lines[0]);
  }

  lemma OwesTwice()
    ensures PartyDue(Served(Open, 2), 0) == 20.0
  {
    assert Weigh(2, 10.0) == 20.0 by { assert Weigh(1, 10.0) == 10.0; }
    SumOne(Served(Open, 2).txns[0], TxnParty(0));
  }

  lemma FirstWellFormed()
    ensures WellFormed(Served(Held, 0)) && !WellFormed(Served(Held, 1))
  {
    assert !TxnOk(Served(Held, 1), 0);
  }

  /** The bill charged, and the status that the conversion saw before written back. */
  ghost function GivenBack(): Docs { WithStatus(Resume(Served(Held, 0), 0, None, []), 0, Held) }

  lemma GivenBackIsHeld()
    ensures GivenBack() == Served(Held, 1)
  {
    ChargeAgain(0);
    hide Resume;
    assert WithStatus(Served(Open, 1), 0, Held) == Served(Held, 1);
  }

  /** A held bill of ten is converted in part, which leaves the hold, and charged meanwhile; the conversion
      fails and gives the hold back; the bill is charged again, and the customer owes twenty. */
  lemma HoldGivenBackOwesTwice()
    ensures WellFormed(Served(Held, 0)) && Claim(Served(Held, 0), 0, Some([HALF])) == Served(Held, 0)
    ensures ResumeOk(Served(Held, 0), 0, None, []) && ResumeOk(GivenBack(), 0, None, []) && !WellFormed(GivenBack())
    ensures var d := Resume(GivenBack(), 0, None, []); |d.parties| == 1 && PartyDue(d, 0) == 20.0
  {
    HalfLeavesHold();
    ChargeAgain(0);
    ChargeAgain(1);
    FirstWellFormed();
    GivenBackIsHeld();
    OwesTwice();
    hide WellFormed, ResumeOk, Resume, PartyDue, Claim, GivenBack;
  }
}
