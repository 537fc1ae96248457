/** The engine and the runs of the model are the same thing: what the engine does, step by step. */
module Performing {
  import opened Books
  import opened Steps
  import opened Runs
  import opened TxnCore

  /** Between two different warehouses, or moving nothing. */
  predicate HonestMove(st: Step) { st.DoMove? ==> st.from != st.to || st.quantity == 0.0 }

  /** An operation on documents or on the status of one. */
  method PerformOnDocument(e: Engine, st: Step) returns (ok: bool)
    requires e.Valid() && (OnDocument(st) || OnStatus(st))
    modifies e
    ensures e.Valid() && e.rows == Next(old(e.rows), st)
    ensures old(MovementsAgree(e.levels, e.movements)) ==> MovementsAgree(e.levels, e.movements)
    ensures ok <==> Allowed(old(e.rows), st)
  {
    match st
    case DoCreate(f) => ok := e.CreateTxn(f);
    case DoResume(id, edit, ps) => ok := e.ResumeHeld(id, edit, ps);
    case DoDelete(id) => ok := e.DeleteTxn(id);
    case DoRestore(id) => ok := e.RestoreTxn(id);
    case DoClaim(id, lines) => ok := e.ClaimSource(id, lines);
    case DoRelease(id, seen) => ok := e.ReleaseSource(id, seen);
    case DoMark(id) => ok := e.MarkRefunded(id);
  }

  /** An operation on items and warehouses outside documents. */
  method PerformOnStock(e: Engine, st: Step) returns (ok: bool)
    requires e.Valid() && OnStock(st)
    modifies e
    ensures e.Valid()
    ensures e.rows == if ok then Next(old(e.rows), st) else old(e.rows)
    ensures ok ==> Allowed(old(e.rows), st)
    ensures !ok && !st.DoMove? ==> !Allowed(old(e.rows), st)
    ensures old(MovementsAgree(e.levels, e.movements)) && HonestMove(st) ==> MovementsAgree(e.levels, e.movements)
  {
    hide MovementsAgree, WellFormed, StockAgrees, PartiesAgree, MoneyAgrees, BillsAgree, LedgerAgrees;
    hide AddItem, AdjustItem, AdjustAt, TransferStock;
    match st
    case DoItem(x, stock, branch) =>
      ok := ItemOk(x);
      if ok { e.CreateItem(x, stock, branch); }
    case DoAdjust(i, quantity, reduce, branch) => ok := e.AdjustStock(i, quantity, reduce, branch);
    case DoAdjustAt(i, w, change) => ok := e.AdjustWarehouse(i, w, change);
    case DoMove(i, from, to, quantity) => ok := e.TransferBetween(i, from, to, quantity);
  }

  predicate OnMoney(st: Step) { !OnDocument(st) && !OnStatus(st) && !OnStock(st) }

  method PerformOnMoney(e: Engine, st: Step) returns (ok: bool)
    requires e.Valid() && OnMoney(st)
    modifies e
    ensures e.Valid() && e.rows == Next(old(e.rows), st)
    ensures ok <==> Allowed(old(e.rows), st)
    ensures e.levels == old(e.levels) && e.movements == old(e.movements)
  {
    hide MovementsAgree;
    ok := true;
    match st
    case DoSettle(k, a) => ok := e.SettleCheque(k, a);
    case DoReopen(k) => ok := e.ReopenCheque(k);
    case DoTransfer(x) => ok := e.CreateTransfer(x);
    case DoLoan(a, amount, repayment) => ok := e.CreateLoanTxn(a, amount, repayment);
    case DoParty(opening, branch) => e.CreateParty(opening, branch);
    case DoAccount(x) => e.CreateAccount(x);
  }

  /** Any operation: the rows become what the model says, or stay as they were when it is refused.
      A move between warehouses may also be refused for want of stock at the one it leaves. */
  method Perform(e: Engine, st: Step) returns (ok: bool)
    requires e.Valid()
    modifies e
    ensures e.Valid()
    ensures e.rows == if ok then Next(old(e.rows), st) else old(e.rows)
    ensures ok ==> Allowed(old(e.rows), st)
    ensures !ok && !st.DoMove? ==> !Allowed(old(e.rows), st)
    ensures old(MovementsAgree(e.levels, e.movements)) && HonestMove(st) ==> MovementsAgree(e.levels, e.movements)
  {
    hide Allowed, MovementsAgree;
    if OnDocument(st) || OnStatus(st) {
      ok := PerformOnDocument(e, st);
    } else if OnStock(st) {
      ok := PerformOnStock(e, st);
    } else {
      ok := PerformOnMoney(e, st);
    }
  }

  /**
    A whole run.  Every column equals its recomputation throughout, every stock level is the sum of
    its movements if warehouse moves are between different ones, and without warehouse moves the
    rows are those of the run.
  */
  method PerformAll(e: Engine, steps: seq<Step>)
    requires e.Valid()
    modifies e
    ensures e.Valid()
    ensures old(MovementsAgree(e.levels, e.movements)) && (forall n :: 0 <= n < |steps| ==> HonestMove(steps[n]))
            ==> MovementsAgree(e.levels, e.movements)
    ensures (forall n :: 0 <= n < |steps| ==> !steps[n].DoMove?) ==> e.rows == Run(old(e.rows), steps)
  {
    for n := 0 to |steps|
      invariant e.Valid()
      invariant old(MovementsAgree(e.levels, e.movements)) && (forall m :: 0 <= m < |steps| ==> HonestMove(steps[m]))
                ==> MovementsAgree(e.levels, e.movements)
      invariant (forall m :: 0 <= m < |steps| ==> !steps[m].DoMove?) ==> e.rows == Run(old(e.rows), steps[..n])
    {
      assert steps[..n + 1][..n] == steps[..n];
      var ok := Perform(e, steps[n]);
    }
    assert steps[..|steps|] == steps;
  }
}
