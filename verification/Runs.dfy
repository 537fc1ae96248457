/**
  Runs: sequences of operations, each of which either takes effect or is refused.

  `Step` lists the operations, `Allowed` says when one goes through and `Next` what it then leaves;
  `Run` strings them together.  First come the lemmas that payment rows keep good references, then,
  operation by operation, that the tables stay well formed.
*/
module Runs {
  import opened Wrappers
  import opened Books
  import opened Steps
  import opened Laws
  import opened PostingLaws

  /** `DoClaim` and `DoRelease` are the two status writes of a conversion around the creation of its
      target, which is a `DoCreate` with a source; `DoMark` is the one after a full return. */
  datatype Step =
    | DoCreate(draft: Draft)
    | DoResume(id: nat, edit: Option<Edit>, payments: seq<PayIn>)
    | DoDelete(id: nat)
    | DoRestore(id: nat)
    | DoClaim(id: nat, lines: Option<seq<Line>>)
    | DoRelease(id: nat, seen: Status)
    | DoMark(id: nat)
    | DoSettle(row: nat, account: nat)
    | DoReopen(row: nat)
    | DoTransfer(transfer: Transfer)
    | DoLoan(account: nat, amount: real, repayment: bool)
    | DoParty(opening: real, branch: Option<nat>)
    | DoAccount(till: Account)
    | DoItem(item: Item, stock: real, branch: Option<nat>)
    | DoAdjust(index: nat, quantity: real, reduce: bool, branch: Option<nat>)
    | DoAdjustAt(index: nat, warehouse: nat, change: real)
    | DoMove(index: nat, from: nat, to: nat, quantity: real)

  /** Whether the operation goes through.  (Moving stock between warehouses has a further check
      against the source level; leaving it out only admits more runs.) */
  ghost predicate Allowed(d: Docs, st: Step) {
    match st
    case DoCreate(f) => CreateOk(d, f)
    case DoResume(id, edit, ps) => ResumeOk(d, id, edit, ps)
    case DoDelete(id) => DeleteOk(d, id)
    case DoRestore(id) => RestoreOk(d, id)
    case DoClaim(id, lines) => ClaimOk(d, id)
    case DoRelease(id, seen) => ReleaseOk(d, id, seen)
    case DoMark(id) => MarkOk(d, id)
    case DoSettle(k, a) => SettleOk(d, k, a)
    case DoReopen(k) => ReopenOk(d, k)
    case DoTransfer(x) => MoveMoneyOk(d, x)
    case DoLoan(a, amount, repayment) => LoanOk(d, a, amount)
    case DoParty(opening, branch) => true
    case DoAccount(x) => true
    case DoItem(x, stock, branch) => ItemOk(x)
    case DoAdjust(i, quantity, reduce, branch) => AdjustItemOk(d, i, quantity)
    case DoAdjustAt(i, w, change) => AtWarehouseOk(d, i, w)
    case DoMove(i, from, to, quantity) => AtWarehouseOk(d, i, from) && AtWarehouseOk(d, i, to)
  }

  ghost function Next(d: Docs, st: Step): Docs {
    if !Allowed(d, st) then d
    else
      match st
      case DoCreate(f) => Create(d, f)
      case DoResume(id, edit, ps) => Resume(d, id, edit, ps)
      case DoDelete(id) => Delete(d, id)
      case DoRestore(id) => Restore(d, id)
      case DoClaim(id, lines) => Claim(d, id, lines)
      case DoRelease(id, seen) => WithStatus(d, id, seen)
      case DoMark(id) => WithStatus(d, id, Refunded)
      case DoSettle(k, a) => Settle(d, k, a)
      case DoReopen(k) => Reopen(d, k)
      case DoTransfer(x) => MoveMoney(d, x)
      case DoLoan(a, amount, repayment) => LoanCash(d, a, amount, repayment)
      case DoParty(opening, branch) => AddParty(d, opening)
      case DoAccount(x) => AddAccount(d, x)
      case DoItem(x, stock, branch) => AddItem(d, x, stock, branch)
      case DoAdjust(i, quantity, reduce, branch) => AdjustItem(d, i, if reduce then -quantity else quantity, branch)
      case DoAdjustAt(i, w, change) => AdjustAt(d, i, w, change)
      case DoMove(i, from, to, quantity) => TransferStock(d, i, from, to, quantity)
  }

  ghost function Run(d: Docs, steps: seq<Step>): Docs {
    if |steps| == 0 then d else Next(Run(d, steps[..|steps| - 1]), steps[|steps| - 1])
  }

  // ----- Payment rows keep good references -----

  lemma {:induction false} TenderKeepsRefs(d: Docs, id: nat, kind: Kind, branch: Option<nat>, ps: seq<PayIn>)
    requires MoneyRefs(d) && TendersOk(d.accounts, ps)
    ensures var (accounts, pays) := TenderAll(id, kind, branch, ps, d.accounts, d.pays);
            |d.accounts| <= |accounts| && MoneyRefs(d.(accounts := accounts, pays := pays))
  {
    if |ps| > 0 {
      var n := |ps| - 1;
      TenderKeepsRefs(d, id, kind, branch, ps[..n]);
      var (accounts1, pays1) := TenderAll(id, kind, branch, ps[..n], d.accounts, d.pays);
      var (accounts2, pays2) := TenderOne(id, kind, branch, ps[n], accounts1, pays1);
      assert TenderOk(d.accounts, ps[n]);
      var d1, d2 := d.(accounts := accounts1, pays := pays1), d.(accounts := accounts2, pays := pays2);
      if accounts2 != accounts1 { OpenAccount(d1, accounts2[|accounts1|]); }
      assert MoneyRefs(d1.(accounts := accounts2));
      forall k | 0 <= k < |pays2| ensures PayRefs(accounts2, pays2[k]) {
        if k < |pays1| { assert PayRefs(d1.(accounts := accounts2).accounts, d1.(accounts := accounts2).pays[k]); }
      }
      forall k | 0 <= k < |d2.transfers| ensures TransferOk(d2, d2.transfers[k]) {
        assert TransferOk(d1.(accounts := accounts2), d1.transfers[k]);
      }
    } else {
      assert d.(accounts := d.accounts, pays := d.pays) == d;
    }
  }

  lemma PostKeepsRefs(d: Docs, id: nat, ps: seq<PayIn>, als: seq<AllocIn>)
    requires WellFormed(d) && id < |d.txns| && TendersOk(d.accounts, ps)
    ensures MoneyRefs(Post(d, id, ps, als))
  {
    WellFormedRefs(d);
    var d' := Post(d, id, ps, als);
    TenderKeepsRefs(d, id, d.txns[id].kind, d.txns[id].branch, ps);
    SameMoneyRefs(d.(accounts := d'.accounts, pays := d'.pays), d');
  }

  lemma SameMoneyRefs(d: Docs, d': Docs)
    requires MoneyRefs(d) && d'.accounts == d.accounts && d'.pays == d.pays && d'.transfers == d.transfers
             && d'.loans == d.loans
    ensures MoneyRefs(d')
  {
    forall k | 0 <= k < |d'.transfers| ensures TransferOk(d', d'.transfers[k]) { assert TransferOk(d, d.transfers[k]); }
  }

  lemma TurnKeepsRefs(d: Docs, d': Docs, id: nat)
    requires WellFormed(d) && id < |d.txns| && (d'.pays == Undone(d, id) || d'.pays == Redone(d, id))
    requires d'.accounts == d.accounts && d'.transfers == d.transfers && d'.loans == d.loans
    ensures MoneyRefs(d')
  {
    WellFormedRefs(d);
    forall k | 0 <= k < |d'.pays| ensures PayRefs(d'.accounts, d'.pays[k]) {
      var r := d.pays[k];
      assert PayOk(d, r) && PayRefs(d.accounts, r);
      if r.txn == id && !r.tender.Cheque? && Resolve(d.accounts, d.txns[id].branch, r.account, r.tender).Some? {
        ResolvedIsTarget(d.accounts, d.txns[id].branch, r);
      }
    }
    forall k | 0 <= k < |d'.transfers| ensures TransferOk(d', d'.transfers[k]) { assert TransferOk(d, d.transfers[k]); }
  }

  // ----- Every operation keeps the tables well formed -----

  lemma CreateKeeps(d: Docs, f: Draft)
    requires WellFormed(d) && CreateOk(d, f)
    ensures WellFormed(Create(d, f))
  {
    InsertKeepsWellFormed(d, f);
    if !f.OnHold() {
      var d1 := Inserted(d, f);
      PostKeepsRefs(d1, |d.txns|, KeptPayments(f), f.allocations);
      PostKeepsWellFormed(d1, |d.txns|, KeptPayments(f), f.allocations);
    }
  }

  lemma ResumeKeeps(d: Docs, id: nat, edit: Option<Edit>, ps: seq<PayIn>)
    requires WellFormed(d) && ResumeOk(d, id, edit, ps)
    ensures WellFormed(Resume(d, id, edit, ps))
  {
    ChargeIsFresh(d, id, edit, ps);
    var d1 := Charged(d, id, edit, ps);
    PostKeepsRefs(d1, id, ps, []);
    PostKeepsWellFormed(d1, id, ps, []);
  }

  lemma UnpostKeeps(d: Docs, id: nat)
    requires WellFormed(d) && id < |d.txns| && !d.txns[id].status.Held?
    ensures WellFormed(Unpost(d, id))
  {
    UnpostTurns(d, id);
    TurnKeepsRefs(d, Unpost(d, id), id);
    TurnKeepsWellFormed(d, Unpost(d, id), id, -1);
  }

  lemma RepostKeeps(d: Docs, id: nat)
    requires WellFormed(d) && id < |d.txns| && !d.txns[id].status.Held?
    ensures WellFormed(Repost(d, id))
  {
    RepostTurns(d, id);
    TurnKeepsRefs(d, Repost(d, id), id);
    TurnKeepsWellFormed(d, Repost(d, id), id, 1);
  }

  lemma DeleteKeeps(d: Docs, id: nat)
    requires WellFormed(d) && id < |d.txns|
    ensures WellFormed(Delete(d, id))
  {
    var d1 := if d.txns[id].status.Held? then d else Unpost(d, id);
    if !d.txns[id].status.Held? { UnpostKeeps(d, id); }
    FlagsKeepWellFormed(d1, Delete(d, id));
  }

  lemma RestoreKeeps(d: Docs, id: nat)
    requires WellFormed(d) && id < |d.txns|
    ensures WellFormed(Restore(d, id))
  {
    var d1 := if d.txns[id].status.Held? then d else Repost(d, id);
    if !d.txns[id].status.Held? { RepostKeeps(d, id); }
    FlagsKeepWellFormed(d1, Restore(d, id));
  }

  lemma SlipKeeps(d: Docs, k: nat, slip: Slip)
    requires WellFormed(d) && k < |d.pays| && !d.pays[k].slip.NoSlip?
    requires slip.OpenSlip? || (slip.ClosedSlip? && slip.account < |d.accounts|)
    ensures WellFormed(d.(pays := d.pays[k := d.pays[k].(slip := slip)]))
  {
    WellFormedRefs(d);
    var d' := d.(pays := d.pays[k := d.pays[k].(slip := slip)]);
    forall j | 0 <= j < |d'.pays| ensures PayRefs(d'.accounts, d'.pays[j]) { assert PayRefs(d.accounts, d.pays[j]); }
    forall j | 0 <= j < |d'.transfers| ensures TransferOk(d', d'.transfers[j]) { assert TransferOk(d, d.transfers[j]); }
    MoneyTablesKeepWellFormed(d, d');
  }

  lemma StockOpKeeps(d: Docs, b: Option<nat>, o: StockOp)
    requires WellFormed(d)
    requires var ws := if b.Some? then ResolveWarehouse(d.warehouses, b.value) else d.warehouses;
             OpOk(d.(warehouses := ws), o)
    ensures var ws := if b.Some? then ResolveWarehouse(d.warehouses, b.value) else d.warehouses;
            WellFormed(d.(warehouses := ws, stockOps := d.stockOps + [o]))
  {
    var ws := if b.Some? then ResolveWarehouse(d.warehouses, b.value) else d.warehouses;
    var d' := d.(warehouses := ws, stockOps := d.stockOps + [o]);
    if b.Some? { HomeStable(d.warehouses, b.value, 0); }
    forall k | 0 <= k < |d'.stockOps|
      ensures OpOk(d', d'.stockOps[k])
    {
      if k < |d.stockOps| { assert OpOk(d, d.stockOps[k]); }
    }
    forall k | 0 <= k < |d'.transfers| ensures TransferOk(d', d'.transfers[k]) { assert TransferOk(d, d.transfers[k]); }
    OtherTablesKeepWellFormed(d, d');
  }

  lemma MoneyTablesGrow(d: Docs, d': Docs)
    requires WellFormed(d)
    requires d' == d.(transfers := d'.transfers, loans := d'.loans)
    requires forall k {:trigger TransferOk(d', d'.transfers[k])} :: 0 <= k < |d'.transfers|
               ==> TransferOk(d', d'.transfers[k])
    requires forall k :: 0 <= k < |d'.loans| ==> d'.loans[k].account < |d.accounts|
    ensures WellFormed(d')
  {
    forall k | 0 <= k < |d'.stockOps| ensures OpOk(d', d'.stockOps[k]) { assert OpOk(d, d.stockOps[k]); }
    OtherTablesKeepWellFormed(d, d');
  }

  lemma ItemKeeps(d: Docs, x: Item, opening: real, branch: Option<nat>)
    requires WellFormed(d) && ItemOk(x)
    ensures WellFormed(AddItem(d, x, opening, branch))
  {
    var d1 := d.(items := d.items + [CleanItem(x)]);
    NewItemTables(d, CleanItem(x));
    var placed := opening > 0.0 && CleanItem(x).trackStock && branch.Some?;
    var b := if placed then branch else None;
    var ws := if placed then ResolveWarehouse(d.warehouses, branch.value) else d.warehouses;
    var at := if placed then Home(ws, branch.value) else None;
    StockOpKeeps(d1, b, StockOp(|d.items|, at, if x.service then 0.0 else opening, true));
  }

  lemma StatusKeeps(d: Docs, id: nat, s: Status)
    requires WellFormed(d) && id < |d.txns| && (s.Held? ==> NeverMoved(d, id))
    ensures WellFormed(WithStatus(d, id, s))
  {
    FlagsKeepWellFormed(d, WithStatus(d, id, s));
  }

  lemma HeldNeverMoved(d: Docs, id: nat)
    requires WellFormed(d) && id < |d.txns| && d.txns[id].status.Held?
    ensures NeverMoved(d, id)
  {
    assert TxnOk(d, id);
    forall k | 0 <= k < |d.pays| ensures d.pays[k].txn != id { assert PayOk(d, d.pays[k]); }
    forall k | 0 <= k < |d.allocs| ensures d.allocs[k].pay != id && d.allocs[k].against != id {
      assert AllocOk(d, d.allocs[k]);
    }
  }

  /** Giving a status back keeps the tables well formed exactly when it puts nothing on hold that has moved since:
      the server does not look. */
  lemma ReleaseKeepsWellFormedExactlyWhen(d: Docs, id: nat, seen: Status)
    requires WellFormed(d) && id < |d.txns|
    ensures WellFormed(WithStatus(d, id, seen)) <==> (seen.Held? ==> NeverMoved(d, id))
  {
    if WellFormed(WithStatus(d, id, seen)) && seen.Held? {
      HeldNeverMoved(WithStatus(d, id, seen), id);
    }
    if seen.Held? ==> NeverMoved(d, id) { StatusKeeps(d, id, seen); }
  }

  /** Claiming leaves a document on hold only if it was. */
  lemma ClaimedHeld(d: Docs, id: nat, lines: Option<seq<Line>>)
    requires WellFormed(d) && id < |d.txns| && ClaimedStatus(d, id, lines).Held?
    ensures d.txns[id].status.Held? && NeverMoved(d, id)
  {
    HeldNeverMoved(d, id);
  }

  predicate OnDocument(st: Step) { st.DoCreate? || st.DoResume? || st.DoDelete? || st.DoRestore? }

  predicate OnStatus(st: Step) { st.DoClaim? || st.DoRelease? || st.DoMark? }

  predicate OnStock(st: Step) { st.DoItem? || st.DoAdjust? || st.DoAdjustAt? || st.DoMove? }

  lemma DocumentStepKeeps(d: Docs, st: Step)
    requires WellFormed(d) && Allowed(d, st) && OnDocument(st)
    ensures WellFormed(Next(d, st))
  {
    match st
    case DoCreate(f) => CreateKeeps(d, f);
    case DoResume(id, edit, ps) => ResumeKeeps(d, id, edit, ps);
    case DoDelete(id) => DeleteKeeps(d, id);
    case DoRestore(id) => RestoreKeeps(d, id);
  }

  lemma StatusStepKeeps(d: Docs, st: Step)
    requires WellFormed(d) && Allowed(d, st) && OnStatus(st)
    ensures WellFormed(Next(d, st))
  {
    match st
    case DoClaim(id, lines) =>
      if ClaimedStatus(d, id, lines).Held? { ClaimedHeld(d, id, lines); }
      StatusKeeps(d, id, ClaimedStatus(d, id, lines));
    case DoRelease(id, seen) => StatusKeeps(d, id, seen);
    case DoMark(id) => StatusKeeps(d, id, Refunded);
  }

  lemma StockStepKeeps(d: Docs, st: Step)
    requires WellFormed(d) && Allowed(d, st) && OnStock(st)
    ensures WellFormed(Next(d, st))
  {
    match st
    case DoItem(x, stock, branch) => ItemKeeps(d, x, stock, branch);
    case DoAdjust(i, quantity, reduce, branch) =>
      var ws := if branch.Some? then ResolveWarehouse(d.warehouses, branch.value) else d.warehouses;
      var at := if branch.Some? then Home(ws, branch.value) else None;
      StockOpKeeps(d, branch, StockOp(i, at, if reduce then -quantity else quantity, true));
    case DoAdjustAt(i, w, change) => StockOpKeeps(d, None, StockOp(i, Some(w), change, true));
    case DoMove(i, from, to, quantity) => MoveKeeps(d, i, from, to, quantity);
  }

  lemma MoveKeeps(d: Docs, i: nat, from: nat, to: nat, quantity: real)
    requires WellFormed(d) && AtWarehouseOk(d, i, from) && AtWarehouseOk(d, i, to)
    ensures WellFormed(TransferStock(d, i, from, to, quantity))
  {
    if from == to {
      StockOpKeeps(d, None, StockOp(i, Some(to), quantity, false));
    } else {
      var leave, enter := StockOp(i, Some(from), -quantity, false), StockOp(i, Some(to), quantity, false);
      StockOpKeeps(d, None, leave);
      StockOpKeeps(d.(stockOps := d.stockOps + [leave]), None, enter);
      assert d.stockOps + [leave] + [enter] == d.stockOps + [leave, enter];
    }
  }

  lemma TransferKeeps(d: Docs, x: Transfer)
    requires WellFormed(d) && MoveMoneyOk(d, x)
    ensures WellFormed(MoveMoney(d, x))
  {
    var d' := MoveMoney(d, x);
    forall k | 0 <= k < |d'.transfers| ensures TransferOk(d', d'.transfers[k]) {
      if k < |d.transfers| { assert TransferOk(d, d.transfers[k]); }
    }
    MoneyTablesGrow(d, d');
  }

  lemma LoanKeeps(d: Docs, a: nat, amount: real, repayment: bool)
    requires WellFormed(d) && LoanOk(d, a, amount)
    ensures WellFormed(LoanCash(d, a, amount, repayment))
  {
    var d' := LoanCash(d, a, amount, repayment);
    forall k | 0 <= k < |d'.transfers| ensures TransferOk(d', d'.transfers[k]) { assert TransferOk(d, d.transfers[k]); }
    MoneyTablesGrow(d, d');
  }

  lemma AccountKeeps(d: Docs, x: Account)
    requires WellFormed(d)
    ensures WellFormed(AddAccount(d, x))
  {
    WellFormedRefs(d);
    OpenAccount(d, x);
    MoneyTablesKeepWellFormed(d, AddAccount(d, x));
  }

  lemma NextKeepsWellFormed(d: Docs, st: Step)
    requires WellFormed(d)
    ensures WellFormed(Next(d, st))
  {
    if Allowed(d, st) {
      if OnDocument(st) {
        DocumentStepKeeps(d, st);
      } else if OnStatus(st) {
        StatusStepKeeps(d, st);
      } else if OnStock(st) {
        StockStepKeeps(d, st);
      } else {
        hide WellFormed;
        match st
        case DoSettle(k, a) => SlipKeeps(d, k, ClosedSlip(a));
        case DoReopen(k) => SlipKeeps(d, k, OpenSlip);
        case DoTransfer(x) => TransferKeeps(d, x);
        case DoLoan(a, amount, repayment) => LoanKeeps(d, a, amount, repayment);
        case DoParty(opening, branch) => NewPartyZero(d, opening);
        case DoAccount(x) => AccountKeeps(d, x);
      }
    }
  }

  lemma {:induction false} RunKeepsWellFormed(d: Docs, steps: seq<Step>)
    requires WellFormed(d)
    ensures WellFormed(Run(d, steps))
  {
    if |steps| > 0 {
      RunKeepsWellFormed(d, steps[..|steps| - 1]);
      NextKeepsWellFormed(Run(d, steps[..|steps| - 1]), steps[|steps| - 1]);
    }
  }
}
