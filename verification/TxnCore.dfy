/**
  The transaction engine: one store of rows and derived columns, and the operations that post
  documents, take them back and put them on again.

  Each public operation is one database transaction: it reports whether it went through, and
  if it did not, nothing has changed.
*/
module TxnCore {
  import opened Wrappers
  import opened Sums
  import opened Books
  import opened Steps
  import opened Laws
  import opened PostingLaws

  class Engine {
    var rows: Docs
    var stock: seq<real>                  // currentStock of each item
    var levels: map<(nat, nat), real>     // quantity per (item, warehouse)
    var movements: seq<Movement>
    var dues: seq<real>                   // currentBalance of each party
    var ledger: seq<Entry>
    var balances: seq<real>               // balance of each money account
    var paid: seq<real>                   // paidAmount of each document
    var owed: seq<real>                   // balance of each document

    /** Every derived column is what recomputing it from the rows gives. */
    ghost predicate Valid()
      reads this
    {
      && WellFormed(rows)
      && StockAgrees(rows, stock, levels)
      && PartiesAgree(rows, dues)
      && LedgerAgrees(dues, ledger)
      && MoneyAgrees(rows, balances)
      && BillsAgree(rows, paid, owed)
    }

    // ----- Stock -----

    static function Direction(kind: Kind, invert: bool): int {
      if invert then -StockEffect(kind) else StockEffect(kind)
    }

    method ApplyStock(kind: Kind, branch: Option<nat>, lines: seq<Line>, invert: bool) returns (ok: bool)
      requires |stock| == |rows.items|
      requires forall i :: 0 <= i < |rows.items| ==> ItemOk(rows.items[i])
      requires forall k :: 0 <= k < |lines| ==> LineOk(rows.items, lines[k])
      modifies `rows, `stock, `levels, `movements
      ensures rows == old(rows).(warehouses := rows.warehouses)
      ensures ok <==> invert || StockEffect(kind) >= 0 || Covers(rows.items, lines, old(stock))
      ensures ok ==> rows.warehouses
                     == if Shelves(rows.items, kind, branch, lines)
                        then ResolveWarehouse(old(rows).warehouses, branch.value)
                        else old(rows).warehouses
      ensures ok ==> StockMoved(rows.items, lines, Direction(kind, invert), old(stock), stock)
      ensures ok ==> LevelsMoved(rows.items, lines, Direction(kind, invert), Shelf(old(rows).warehouses, branch),
                                 old(levels), levels)
      ensures MovementsAgree(old(levels), old(movements)) ==> MovementsAgree(levels, movements)
    {
      ok := true;
      if StockEffect(kind) == 0 { return; }
      var direction := Direction(kind, invert);
      ghost var items, ws0, s0, l0 := rows.items, rows.warehouses, stock, levels;
      ghost var shelf := Shelf(ws0, branch);
      if branch.Some? { HomeStable(ws0, branch.value, branch.value); }
      NothingMoved(items, lines, direction, shelf, s0, l0);
      hide StockMoved, LevelsMoved, MovementsAgree, HasTracked, Covers;
      for k := 0 to |lines|
        invariant rows == old(rows).(warehouses := rows.warehouses)
        invariant rows.warehouses
                  == if branch.Some? && HasTracked(items, lines[..k]) then ResolveWarehouse(ws0, branch.value) else ws0
        invariant StockMoved(items, lines[..k], direction, s0, stock)
        invariant LevelsMoved(items, lines[..k], direction, shelf, l0, levels)
        invariant old(MovementsAgree(levels, movements)) ==> MovementsAgree(levels, movements)
        invariant !invert && StockEffect(kind) < 0 ==> Covers(items, lines[..k], s0)
      {
        var line := lines[k];
        if line.item.Some? && Tracked(rows.items[line.item.value]) {
          LineDemandPositive(items, line, line.item.value);
          if direction == -1 && !invert { GuardStep(items, lines, k, s0, stock); }
          ghost var s, l := stock, levels;
          assert Shelf(rows.warehouses, branch) == shelf;
          ok := ApplyTracked(line, branch, direction, invert);
          if !ok {
            UncoveredStays(items, lines, k + 1, s0);
            return;
          }
          TrackedStep(items, lines, k, direction, shelf, s0, s, stock, l0, l, levels);
        } else {
          UntrackedStep(items, lines, k, direction, shelf, s0, stock, l0, levels);
        }
      }
      assert lines[..|lines|] == lines;
    }

    /** One line of a tracked item, refused if it takes out more than there is now. */
    method ApplyTracked(line: Line, branch: Option<nat>, direction: int, invert: bool) returns (ok: bool)
      requires line.item.Some? && line.item.value < |stock| == |rows.items|
      modifies `rows, `stock, `levels, `movements
      ensures var i, q := line.item.value, Directed(direction, LineQuantity(old(rows).items[line.item.value], line));
              && (ok <==> invert || q >= 0.0 || old(stock)[i] + q >= 0.0)
              && (ok ==> stock == old(stock)[i := old(stock)[i] + q])
              && (ok ==> LevelsShifted(old(levels), levels, direction, LineQuantity(old(rows).items[i], line),
                                       Shelf(old(rows).warehouses, branch), i))
      ensures ok ==> rows == old(rows).(warehouses := if branch.Some?
                                                      then ResolveWarehouse(old(rows).warehouses, branch.value)
                                                      else old(rows).warehouses)
      ensures ok ==> (MovementsAgree(old(levels), old(movements)) ==> MovementsAgree(levels, movements))
      ensures !ok ==> unchanged(`rows, `stock, `levels, `movements)
    {
      hide ResolveWarehouse, MovementsAgree;
      var i := line.item.value;
      var quantity := Directed(direction, LineQuantity(rows.items[i], line));
      if !invert && quantity < 0.0 && stock[i] + quantity < 0.0 { return false; }
      ApplyLine(i, branch, quantity);
      ok := true;
    }

    method ApplyLine(i: nat, branch: Option<nat>, quantity: real)
      requires i < |stock|
      modifies `rows, `stock, `levels, `movements
      ensures stock == old(stock)[i := old(stock)[i] + quantity]
      ensures rows == old(rows).(warehouses := if branch.Some?
                                               then ResolveWarehouse(old(rows).warehouses, branch.value)
                                               else old(rows).warehouses)
      ensures forall j: nat, w: nat :: LevelAt(levels, j, w)
                == LevelAt(old(levels), j, w)
                   + (if j == i && Shelf(old(rows).warehouses, branch) == Some(w) then quantity else 0.0)
      ensures MovementsAgree(old(levels), old(movements)) ==> MovementsAgree(levels, movements)
    {
      stock := stock[i := stock[i] + quantity];
      if branch.Some? {
        MoveStock(i, branch.value, quantity);
      }
    }

    /** One line's movement at the branch's warehouse, finding or making that warehouse first. */
    method MoveStock(i: nat, b: nat, quantity: real)
      modifies `rows, `levels, `movements
      ensures rows == old(rows).(warehouses := ResolveWarehouse(old(rows).warehouses, b))
      ensures forall j: nat, w: nat :: LevelAt(levels, j, w)
                == LevelAt(old(levels), j, w)
                   + (if j == i && Home(rows.warehouses, b) == Some(w) then quantity else 0.0)
      ensures MovementsAgree(old(levels), old(movements)) ==> MovementsAgree(levels, movements)
    {
      rows := rows.(warehouses := ResolveWarehouse(rows.warehouses, b));
      var home := Home(rows.warehouses, b);
      if home.Some? {
        Shift(i, home.value, quantity);
      }
    }

    /** A level changes and the movement that explains it is recorded. */
    method Shift(i: nat, w: nat, quantity: real)
      modifies `levels, `movements
      ensures forall j: nat, v: nat ::
                LevelAt(levels, j, v) == LevelAt(old(levels), j, v) + (if j == i && v == w then quantity else 0.0)
      ensures MovementsAgree(old(levels), old(movements)) ==> MovementsAgree(levels, movements)
    {
      ghost var ms, ls := movements, levels;
      levels := levels[(i, w) := LevelAt(levels, i, w) + quantity];
      movements := movements + [Movement(i, w, quantity)];
      forall j: nat, v: nat
        ensures Sum(movements, MoveAmount(j, v))
                == Sum(ms, MoveAmount(j, v)) + if j == i && v == w then quantity else 0.0
      {
        SumAppend(ms, Movement(i, w, quantity), MoveAmount(j, v));
      }
    }

    // ----- Parties -----

    method ApplyPartyBalance(p: nat, branch: Option<nat>, delta: real, invert: bool)
      requires p < |dues|
      requires LedgerAgrees(dues, ledger)
      modifies `dues, `ledger
      ensures dues == old(dues)[p := old(dues)[p] + if invert then -delta else delta]
      ensures LedgerAgrees(dues, ledger) && old(ledger) <= ledger
      ensures LedgerBranch(old(ledger), ledger, branch)
    {
      var change := if invert then -delta else delta;
      if change == 0.0 { return; }
      EnterLedger(p, branch, change);
    }

    /** The party's balance changes and the ledger gains the line that explains it. */
    method EnterLedger(p: nat, branch: Option<nat>, change: real)
      requires p < |dues|
      requires LedgerAgrees(dues, ledger)
      modifies `dues, `ledger
      ensures dues == old(dues)[p := old(dues)[p] + change]
      ensures LedgerAgrees(dues, ledger) && old(ledger) <= ledger
      ensures LedgerBranch(old(ledger), ledger, branch)
    {
      ghost var before, duesBefore := ledger, dues;
      dues := dues[p := dues[p] + change];
      ledger := ledger + [Entry(p, branch, change, dues[p])];
      forall q: nat | q < |dues| ensures dues[q] == Sum(ledger, EntryAmount(q)) {
        SumAppend(before, Entry(p, branch, change, dues[p]), EntryAmount(q));
      }
      forall k | 0 <= k < |ledger| ensures EntryOk(dues, ledger, k) {
        if k < |before| {
          assert EntryOk(duesBefore, before, k);
          assert ledger[..k + 1] == before[..k + 1];
        } else {
          assert ledger[..k + 1] == ledger;
        }
      }
    }

    // ----- Money -----

    /** The payments that come with a document: each leaves a row, and each except a cheque
        moves an account, opened on the spot if the branch has none of that kind. */
    method TenderPayments(id: nat, ps: seq<PayIn>) returns (ok: bool)
      requires id < |rows.txns|
      requires MoneyRefs(rows) && MoneyAgrees(rows, balances)
      modifies `rows, `balances
      ensures ok <==> TendersOk(old(rows).accounts, ps)
      ensures ok ==> MoneyRefs(rows) && MoneyAgrees(rows, balances)
      ensures ok ==>
        var (accounts, pays) := TenderAll(id, old(rows).txns[id].kind, old(rows).txns[id].branch, ps,
                                          old(rows).accounts, old(rows).pays);
        rows == old(rows).(accounts := accounts, pays := pays)
    {
      var known := rows.accounts;
      ghost var kind, branch := rows.txns[id].kind, rows.txns[id].branch;
      for k := 0 to |ps|
        invariant (rows.accounts, rows.pays) == TenderAll(id, kind, branch, ps[..k], old(rows).accounts, old(rows).pays)
        invariant rows == old(rows).(accounts := rows.accounts, pays := rows.pays)
        invariant |known| <= |rows.accounts|
        invariant MoneyRefs(rows) && MoneyAgrees(rows, balances)
        invariant forall j :: 0 <= j < k ==> TenderOk(known, ps[j])
      {
        assert ps[..k + 1][..k] == ps[..k];
        if !TenderOk(known, ps[k]) { return false; }
        TenderPayment(id, ps[k]);
      }
      assert ps[..|ps|] == ps;
      return true;
    }

    method TenderPayment(id: nat, p: PayIn)
      requires id < |rows.txns| && TenderOk(rows.accounts, p)
      requires MoneyRefs(rows) && MoneyAgrees(rows, balances)
      modifies `rows, `balances
      ensures MoneyRefs(rows) && MoneyAgrees(rows, balances)
      ensures |rows.accounts| >= |old(rows).accounts|
      ensures var (accounts, pays) := TenderOne(id, old(rows).txns[id].kind, old(rows).txns[id].branch, p,
                                                old(rows).accounts, old(rows).pays);
              rows == old(rows).(accounts := accounts, pays := pays)
    {
      if p.tender.Debt? || p.amount <= 0.0 { return; }
      var txn := rows.txns[id];
      if p.tender.Cheque? {
        RecordPay(Pay(id, Inbound(txn.kind), Cheque, None, p.amount, 0, OpenSlip), None);
      } else {
        var landed := Resolve(rows.accounts, txn.branch, p.account, p.tender);
        if landed.None? && p.account.None? && txn.branch.Some? {
          landed := Some(|rows.accounts|);
          OpenAccount(rows, Account(txn.branch, TillOf(p.tender), 0.0));
          rows := rows.(accounts := rows.accounts + [Account(txn.branch, TillOf(p.tender), 0.0)]);
          balances := balances + [0.0];
        }
        var row := Pay(id, Inbound(txn.kind), p.tender, if landed.Some? then landed else p.account, p.amount,
                       if landed.Some? then 1 else 0, NoSlip);
        RecordPay(row, landed);
      }
    }

    /** A new payment row; one that landed moves its account. */
    method RecordPay(r: Pay, landed: Option<nat>)
      requires MoneyRefs(rows) && MoneyAgrees(rows, balances)
      requires PayRefs(rows.accounts, r) && !r.slip.ClosedSlip?
      requires landed.None? ==> r.net == 0
      requires landed.Some? ==> r.net == 1 && r.account == landed && !r.tender.Cheque?
      modifies `rows, `balances
      ensures MoneyRefs(rows) && MoneyAgrees(rows, balances)
      ensures rows == old(rows).(pays := old(rows).pays + [r])
    {
      ghost var d := rows;
      rows := rows.(pays := rows.pays + [r]);
      if landed.Some? {
        balances := balances[landed.value := balances[landed.value] + Signed(r)];
      }
      forall a: nat | a < |balances| ensures balances[a] == AccountDue(rows, a) {
        AddPay(d, r, a);
      }
      forall k | 0 <= k < |rows.transfers|
        ensures TransferOk(rows, rows.transfers[k])
      {
        assert TransferOk(d, d.transfers[k]);
      }
    }

    /** A payment row is rewritten; the given account, if any, moves by the difference it makes. */
    method RewriteRow(k: nat, r: Pay, at: Option<nat>, change: real)
      requires MoneyRefs(rows) && MoneyAgrees(rows, balances)
      requires k < |rows.pays| && (at.Some? ==> at.value < |rows.accounts|) && PayRefs(rows.accounts, r)
      requires forall b: nat :: b < |rows.accounts| ==>
                 PayMoney(rows.accounts, b)(r)
                 == PayMoney(rows.accounts, b)(rows.pays[k]) + (if at == Some(b) then change else 0.0)
      modifies `rows, `balances
      ensures MoneyRefs(rows) && MoneyAgrees(rows, balances)
      ensures rows == old(rows).(pays := old(rows).pays[k := r])
    {
      ghost var d := rows;
      rows := rows.(pays := rows.pays[k := r]);
      if at.Some? {
        balances := balances[at.value := balances[at.value] + change];
      }
      forall b: nat | b < |balances| ensures balances[b] == AccountDue(rows, b) {
        RewritePay(d, k, r, b);
      }
      forall j | 0 <= j < |rows.transfers|
        ensures TransferOk(rows, rows.transfers[j])
      {
        assert TransferOk(d, d.transfers[j]);
      }
    }

    /** Every cheque of the document goes: one already settled gives its money back first. */
    method DropCheques(id: nat)
      requires MoneyRefs(rows) && MoneyAgrees(rows, balances)
      modifies `rows, `balances
      ensures MoneyRefs(rows) && MoneyAgrees(rows, balances)
      ensures rows == old(rows).(pays := rows.pays) && |rows.pays| == |old(rows).pays|
      ensures forall k :: 0 <= k < |rows.pays| ==> rows.pays[k] == WithoutCheque(old(rows).pays[k], id)
    {
      for k := 0 to |rows.pays|
        invariant MoneyRefs(rows) && MoneyAgrees(rows, balances)
        invariant rows == old(rows).(pays := rows.pays) && |rows.pays| == |old(rows).pays|
        invariant forall j :: 0 <= j < |rows.pays| ==>
                    rows.pays[j] == if j < k then WithoutCheque(old(rows).pays[j], id) else old(rows).pays[j]
      {
        var r := rows.pays[k];
        if r.txn == id && r.tender.Cheque? {
          assert PayRefs(rows.accounts, r);
          var account := if r.slip.ClosedSlip? then Some(r.slip.account) else None;
          RewriteRow(k, r.(slip := NoSlip), account, -Signed(r));
        }
      }
    }

    static function WithoutCheque(r: Pay, id: nat): Pay {
      if r.txn == id && r.tender.Cheque? then r.(slip := NoSlip) else r
    }

    /** Takes a payment back from the account it resolves to now, if there is one; never opens one. */
    method UndoRow(k: nat, branch: Option<nat>)
      requires MoneyRefs(rows) && MoneyAgrees(rows, balances)
      requires k < |rows.pays| && PayRefs(rows.accounts, rows.pays[k])
      requires !rows.pays[k].tender.Cheque? && (rows.pays[k].account.None? ==> branch.None?)
      modifies `rows, `balances
      ensures MoneyRefs(rows) && MoneyAgrees(rows, balances)
      ensures rows == old(rows).(pays := old(rows).pays[k := UndoPay(old(rows).accounts, branch, old(rows).pays[k])])
    {
      var r := rows.pays[k];
      var account := Resolve(rows.accounts, branch, r.account, r.tender);
      if account.Some? {
        ResolvedIsTarget(rows.accounts, branch, r);
        WeighStep(r.net, Signed(r));
        RewriteRow(k, r.(net := r.net - 1), account, -Signed(r));
      }
    }

    /** Deleting a document undoes its payments one by one.  Meeting a cheque removes all of the
        document's cheques at once, so a second cheque payment finds none left to undo. */
    method UndoPayments(id: nat)
      requires id < |rows.txns|
      requires MoneyRefs(rows) && MoneyAgrees(rows, balances)
      requires forall k :: 0 <= k < |rows.pays| ==> PayOk(rows, rows.pays[k])
      modifies `rows, `balances
      ensures MoneyRefs(rows) && MoneyAgrees(rows, balances)
      ensures rows == old(rows).(pays := Undone(old(rows), id))
    {
      ghost var dropped := false;
      ghost var was := old(rows).pays;
      ghost var branch := rows.txns[id].branch;
      for k := 0 to |rows.pays|
        invariant MoneyRefs(rows) && MoneyAgrees(rows, balances)
        invariant rows == old(rows).(pays := rows.pays) && |rows.pays| == |was|
        invariant forall j :: 0 <= j < |was|
                    ==> rows.pays[j] == PartlyUndone(rows.accounts, branch, was[j], id, j < k, dropped)
        invariant forall j :: 0 <= j < k && was[j].txn == id && was[j].tender.Cheque? ==> dropped
      {
        var r := rows.pays[k];
        assert PayOk(old(rows), was[k]) && PayRefs(rows.accounts, r);
        if r.txn == id {
          if r.tender.Cheque? {
            DropCheques(id);
            dropped := true;
          } else {
            UndoRow(k, rows.txns[id].branch);
          }
        }
      }
      assert rows.pays == Undone(old(rows), id);
    }

    static ghost function PartlyUndone(accounts: seq<Account>, branch: Option<nat>, r: Pay, id: nat, passed: bool,
                                       dropped: bool): Pay {
      if r.txn != id then r
      else if r.tender.Cheque? then (if dropped then r.(slip := NoSlip) else r)
      else if passed then UndoPay(accounts, branch, r) else r
    }

    /** Restoring a document applies its stored payment rows again, with fresh cheques.  A row
        that still has a cheque refuses a second one. */
    method RedoPayments(id: nat) returns (ok: bool)
      requires id < |rows.txns|
      requires MoneyRefs(rows) && MoneyAgrees(rows, balances)
      requires forall k :: 0 <= k < |rows.pays| ==> PayOk(rows, rows.pays[k])
      modifies `rows, `balances
      ensures ok <==> ChequesFree(old(rows).pays, id)
      ensures ok ==> MoneyRefs(rows) && MoneyAgrees(rows, balances)
      ensures ok ==> rows == old(rows).(pays := Redone(old(rows), id))
    {
      ghost var was := old(rows).pays;
      ghost var branch := rows.txns[id].branch;
      for k := 0 to |rows.pays|
        invariant MoneyRefs(rows) && MoneyAgrees(rows, balances)
        invariant rows == old(rows).(pays := rows.pays) && |rows.pays| == |was|
        invariant forall j :: 0 <= j < |was|
                    ==> rows.pays[j] == if j < k && was[j].txn == id then RedoPay(rows.accounts, branch, was[j])
                                        else was[j]
        invariant forall j :: 0 <= j < k ==> ChequeFree(was[j], id)
      {
        assert PayOk(old(rows), was[k]);
        if rows.pays[k].txn == id {
          if !ChequeFree(rows.pays[k], id) { return false; }
          RedoRow(id, k);
        }
      }
      assert rows.pays == Redone(old(rows), id);
      return true;
    }

    method RedoRow(id: nat, k: nat)
      requires id < |rows.txns| && k < |rows.pays| && rows.pays[k].txn == id && ChequeFree(rows.pays[k], id)
      requires MoneyRefs(rows) && MoneyAgrees(rows, balances)
      requires !rows.pays[k].tender.Cheque? && rows.pays[k].account.None? ==> rows.txns[id].branch.None?
      modifies `rows, `balances
      ensures MoneyRefs(rows) && MoneyAgrees(rows, balances)
      ensures rows == old(rows).(pays := old(rows).pays[k := RedoPay(old(rows).accounts, old(rows).txns[id].branch,
                                                                     old(rows).pays[k])])
    {
      var r := rows.pays[k];
      assert PayRefs(rows.accounts, r);
      if r.tender.Cheque? {
        RewriteRow(k, r.(slip := OpenSlip), None, 0.0);
      } else {
        var account := Resolve(rows.accounts, rows.txns[id].branch, r.account, r.tender);
        if account.Some? {
          ResolvedIsTarget(rows.accounts, rows.txns[id].branch, r);
          WeighStep(r.net, Signed(r));
          RewriteRow(k, r.(net := r.net + 1), account, Signed(r));
        } else {
          RewriteRow(k, r, None, 0.0);
        }
      }
    }

    // ----- Bill-wise allocations -----

    /** A bill's paid amount moves, and its balance and status follow. */
    method PayBill(x: nat, amount: real)
      requires x < |rows.txns| && |paid| == |owed| == |rows.txns|
      modifies `rows, `paid, `owed
      ensures paid == old(paid)[x := old(paid)[x] + amount]
      ensures owed == old(owed)[x := old(rows).txns[x].total - paid[x]]
      ensures var t := old(rows).txns[x];
              rows == old(rows).(txns := old(rows).txns[x := t.(status := BillStatus(t.total, paid[x]))])
    {
      paid := paid[x := paid[x] + amount];
      owed := owed[x := rows.txns[x].total - paid[x]];
      var status := if owed[x] <= 0.0 then Paid else if paid[x] > 0.0 then Partial else Open;
      rows := rows.(txns := rows.txns[x := rows.txns[x].(status := status)]);
    }

    method ApplyAllocations(id: nat, als: seq<AllocIn>) returns (ok: bool)
      requires id < |rows.txns|
      requires BillsAgree(rows, paid, owed)
      modifies `rows, `paid, `owed
      ensures ok <==> AllocsInOk(old(rows), old(rows).txns[id].kind, old(rows).txns[id].party, als)
      ensures ok ==> BillsAgree(rows, paid, owed)
      ensures ok ==> rows == Allocated(old(rows), id, als)
    {
      ghost var d := rows;
      for k := 0 to |als|
        invariant BillsAgree(rows, paid, owed)
        invariant rows == Allocated(d, id, als[..k])
        invariant forall j :: 0 <= j < k ==> AllocInOk(d, d.txns[id].kind, d.txns[id].party, als[j])
      {
        SameAllocCheck(d, rows, id, als[k]);
        if !AllocInOk(rows, rows.txns[id].kind, rows.txns[id].party, als[k]) { return false; }
        ApplyAllocation(d, id, als, k);
      }
      assert als[..|als|] == als;
      return true;
    }

    method ApplyAllocation(ghost d: Docs, id: nat, als: seq<AllocIn>, k: nat)
      requires k < |als| && als[k].against < |d.txns|
      requires rows == Allocated(d, id, als[..k]) && BillsAgree(rows, paid, owed)
      modifies `rows, `paid, `owed
      ensures rows == Allocated(d, id, als[..k + 1]) && BillsAgree(rows, paid, owed)
    {
      ghost var before := rows;
      var a := als[k];
      PayBill(a.against, a.amount + a.discount);
      rows := rows.(allocs := rows.allocs + [Alloc(id, a.against, a.amount, a.discount, 1)]);
      AllocateOne(d, id, als, k, before, rows);
    }

    /** A payment being deleted (step -1) or restored (step 1) takes back, or gives again, what it
        allocated to each bill. */
    method ShiftAllocations(id: nat, step: int)
      requires id < |rows.txns| && (step == 1 || step == -1)
      requires BillsAgree(rows, paid, owed)
      requires forall k :: 0 <= k < |rows.allocs| ==> rows.allocs[k].against < |rows.txns|
      modifies `rows, `paid, `owed
      ensures BillsAgree(rows, paid, owed)
      ensures rows == Reallocated(old(rows), id, step)
    {
      ghost var d := rows;
      ReallocateNone(d, id, step);
      for k := 0 to |rows.allocs|
        invariant |rows.allocs| == |d.allocs| && |rows.txns| == |d.txns|
        invariant BillsAgree(rows, paid, owed)
        invariant rows == PartlyReallocated(d, id, step, k)
      {
        if rows.allocs[k].pay == id {
          ShiftAllocation(d, id, step, k);
        } else {
          ReallocateSkip(d, id, step, k);
        }
      }
      ReallocateAll(d, id, step);
    }

    method ShiftAllocation(ghost d: Docs, id: nat, step: int, k: nat)
      requires k < |d.allocs| && d.allocs[k].pay == id && d.allocs[k].against < |d.txns|
      requires step == 1 || step == -1
      requires rows == PartlyReallocated(d, id, step, k) && BillsAgree(rows, paid, owed)
      modifies `rows, `paid, `owed
      ensures rows == PartlyReallocated(d, id, step, k + 1) && BillsAgree(rows, paid, owed)
    {
      ghost var before := rows;
      var a := rows.allocs[k];
      assert a == d.allocs[k];
      PayBill(a.against, Given(a, step));
      rows := rows.(allocs := rows.allocs[k := a.(net := a.net + step)]);
      ReallocateOne(d, id, step, k, before, rows);
    }

    // ----- Posting, reversing, reposting -----

    method PostParty(txn: Txn, basis: real, invert: bool)
      requires txn.party.Some? ==> txn.party.value < |dues|
      requires txn.kind.P2PTransfer? && txn.party.Some? && txn.p2pTo.Some? ==> txn.p2pTo.value < |dues|
      requires LedgerAgrees(dues, ledger)
      modifies `dues, `ledger
      ensures PartiesMoved(txn, Delta(txn, basis), if invert then -1 else 1, old(dues), dues)
      ensures LedgerAgrees(dues, ledger) && old(ledger) <= ledger
      ensures LedgerBranch(old(ledger), ledger, if txn.kind.P2PTransfer? then None else txn.branch)
    {
      if txn.kind.P2PTransfer? {
        if txn.party.Some? && txn.p2pTo.Some? {
          var amount := if invert then -txn.total else txn.total;
          EnterLedger(txn.party.value, None, -amount);
          EnterLedger(txn.p2pTo.value, None, amount);
        }
      } else if txn.party.Some? {
        ApplyPartyBalance(txn.party.value, txn.branch, Delta(txn, basis), invert);
      }
    }

    /** Stock and party effects of a document; the columns move, the rows only gain a warehouse. */
    method PostGoods(txn: Txn, basis: real, invert: bool) returns (ok: bool)
      requires |stock| == |rows.items|
      requires forall i :: 0 <= i < |rows.items| ==> ItemOk(rows.items[i])
      requires forall k :: 0 <= k < |txn.lines| ==> LineOk(rows.items, txn.lines[k])
      requires txn.party.Some? ==> txn.party.value < |dues|
      requires txn.kind.P2PTransfer? && txn.party.Some? && txn.p2pTo.Some? ==> txn.p2pTo.value < |dues|
      requires LedgerAgrees(dues, ledger)
      modifies `rows, `stock, `levels, `movements, `dues, `ledger
      ensures ok <==> invert || StockEffect(txn.kind) >= 0 || Covers(old(rows).items, txn.lines, old(stock))
      ensures ok ==> rows == old(rows).(warehouses := WarehousesAfter(old(rows), txn))
      ensures ok ==> StockMoved(rows.items, txn.lines, Direction(txn.kind, invert), old(stock), stock)
      ensures ok ==> LevelsMoved(rows.items, txn.lines, Direction(txn.kind, invert),
                                 Shelf(old(rows).warehouses, txn.branch), old(levels), levels)
      ensures ok ==> PartiesMoved(txn, Delta(txn, basis), if invert then -1 else 1, old(dues), dues)
      ensures LedgerAgrees(dues, ledger) && old(ledger) <= ledger
      ensures old(MovementsAgree(levels, movements)) ==> MovementsAgree(levels, movements)
    {
      ok := ApplyStock(txn.kind, txn.branch, txn.lines, invert);
      if ok { PostParty(txn, basis, invert); }
    }

    /** Effects of a document that is in the table but was never posted. */
    method PostEffects(id: nat, ps: seq<PayIn>, als: seq<AllocIn>) returns (ok: bool)
      requires Valid() && Fresh(rows, id)
      requires Delta(rows.txns[id], Sum(ps, NonDebt())) == Delta(rows.txns[id], rows.txns[id].base)
      modifies this
      ensures ok <==> PostOk(old(rows), id, ps, als)
      ensures ok ==> rows == Post(old(rows), id, ps, als) && Valid()
      ensures old(ledger) <= ledger
      ensures old(MovementsAgree(levels, movements)) ==> MovementsAgree(levels, movements)
    {
      ghost var d, s0, l0, dues0 := rows, stock, levels, dues;
      var txn := rows.txns[id];
      PostSplits(d, id, ps, als);
      CoversFits(d, stock, levels, txn.kind, txn.lines);
      ok := MarkPosted(id, ps);
      if !ok { return; }
      ok := PostMoney(id, ps, als);
      if !ok { return; }
      PostColumns(d, id, ps, als, rows, s0, stock, l0, levels, dues0, dues);
    }

    /** The goods and party half of posting. */
    method MarkPosted(id: nat, ps: seq<PayIn>) returns (ok: bool)
      requires Valid() && id < |rows.txns|
      requires Delta(rows.txns[id], Sum(ps, NonDebt())) == Delta(rows.txns[id], rows.txns[id].base)
      modifies `rows, `stock, `levels, `movements, `dues, `ledger
      ensures ok <==> StockEffect(old(rows).txns[id].kind) >= 0
                      || Covers(old(rows).items, old(rows).txns[id].lines, old(stock))
      ensures ok ==> rows == Marked(old(rows), id, ps)
      ensures ok ==> StockMoved(rows.items, old(rows).txns[id].lines, StockEffect(old(rows).txns[id].kind), old(stock),
                                stock)
      ensures ok ==> LevelsMoved(rows.items, old(rows).txns[id].lines, StockEffect(old(rows).txns[id].kind),
                                 Shelf(old(rows).warehouses, old(rows).txns[id].branch), old(levels), levels)
      ensures ok ==> PartiesMoved(old(rows).txns[id], Delta(old(rows).txns[id], old(rows).txns[id].base), 1, old(dues),
                                  dues)
      ensures ok ==> MoneyRefs(rows) && MoneyAgrees(rows, balances) && BillsAgree(rows, paid, owed)
      ensures LedgerAgrees(dues, ledger) && old(ledger) <= ledger
      ensures old(MovementsAgree(levels, movements)) ==> MovementsAgree(levels, movements)
    {
      ghost var d := rows;
      var txn := rows.txns[id];
      assert TxnOk(d, id);
      WellFormedRefs(d);
      rows := rows.(txns := rows.txns[id := txn.(net := txn.net + 1, posted := true, settled := Sum(ps, RowPart()))]);
      ok := PostGoods(txn, Sum(ps, NonDebt()), false);
      if !ok { return; }
      MoneyFollows(d, rows, balances);
      BillsFollow(d, rows, paid, owed);
    }

    /** Payment and allocation effects of a new document. */
    method PostMoney(id: nat, ps: seq<PayIn>, als: seq<AllocIn>) returns (ok: bool)
      requires id < |rows.txns|
      requires MoneyRefs(rows) && MoneyAgrees(rows, balances) && BillsAgree(rows, paid, owed)
      modifies `rows, `balances, `paid, `owed
      ensures ok <==> TenderedOk(old(rows), id, ps, als)
      ensures ok ==> MoneyRefs(rows) && MoneyAgrees(rows, balances) && BillsAgree(rows, paid, owed)
      ensures ok ==> rows == Tendered(old(rows), id, ps, als)
    {
      ghost var d := rows;
      var txn := rows.txns[id];
      ok := TenderPayments(id, ps);
      if !ok { return; }
      BillsFollow(d, rows, paid, owed);
      ghost var mid := rows;
      if IsPayment(txn.kind) {
        AllocChecksFollow(d, rows, txn.kind, txn.party, als);
        ok := ApplyAllocations(id, als);
        if ok { MoneyFollows(mid, rows, balances); }
      } else {
        AllocateNone(rows, id);
      }
    }

    /** Taking a document's effects back, from its stored rows. */
    method UnpostEffects(id: nat)
      requires Valid() && id < |rows.txns| && !rows.txns[id].status.Held?
      modifies this
      ensures rows == Unpost(old(rows), id) && Valid()
      ensures old(ledger) <= ledger
      ensures old(MovementsAgree(levels, movements)) ==> MovementsAgree(levels, movements)
    {
      ghost var d, s0, l0, dues0 := rows, stock, levels, dues;
      var covered := MarkAgain(id, -1);
      UnpostMoney(d, id);
      UnpostTurns(d, id);
      TurnColumns(d, id, -1, rows, s0, stock, l0, levels, dues0, dues);
    }

    method UnpostMoney(ghost d: Docs, id: nat)
      requires WellFormed(d) && id < |d.txns| && rows == MarkedAgain(d, id, -1)
      requires MoneyRefs(rows) && MoneyAgrees(rows, balances) && BillsAgree(rows, paid, owed)
      modifies `rows, `balances, `paid, `owed
      ensures rows == Unpost(d, id)
      ensures MoneyRefs(rows) && MoneyAgrees(rows, balances) && BillsAgree(rows, paid, owed)
    {
      UnpostSplits(d, id);
      MarkedPaysOk(d, id, -1);
      ghost var m := rows;
      UndoPayments(id);
      ShiftMoney(m, id, -1);
    }

    /** Putting a deleted document's effects on again, from its stored rows. */
    method RepostEffects(id: nat) returns (ok: bool)
      requires Valid() && id < |rows.txns| && !rows.txns[id].status.Held?
      modifies this
      ensures ok <==> StockFits(old(rows), old(rows).txns[id].kind, old(rows).txns[id].lines)
                      && ChequesFree(old(rows).pays, id)
      ensures ok ==> rows == Repost(old(rows), id) && Valid()
      ensures old(ledger) <= ledger
      ensures old(MovementsAgree(levels, movements)) ==> MovementsAgree(levels, movements)
    {
      ghost var d, s0, l0, dues0 := rows, stock, levels, dues;
      CoversFits(d, stock, levels, rows.txns[id].kind, rows.txns[id].lines);
      ok := MarkAgain(id, 1);
      if !ok { return; }
      ok := RepostMoney(d, id);
      if !ok { return; }
      RepostTurns(d, id);
      TurnColumns(d, id, 1, rows, s0, stock, l0, levels, dues0, dues);
    }

    method RepostMoney(ghost d: Docs, id: nat) returns (ok: bool)
      requires WellFormed(d) && id < |d.txns| && rows == MarkedAgain(d, id, 1)
      requires MoneyRefs(rows) && MoneyAgrees(rows, balances) && BillsAgree(rows, paid, owed)
      modifies `rows, `balances, `paid, `owed
      ensures ok <==> ChequesFree(d.pays, id)
      ensures ok ==> rows == Repost(d, id)
      ensures ok ==> MoneyRefs(rows) && MoneyAgrees(rows, balances) && BillsAgree(rows, paid, owed)
    {
      RepostSplits(d, id);
      MarkedPaysOk(d, id, 1);
      ghost var m := rows;
      ok := RedoPayments(id);
      if ok { ShiftMoney(m, id, 1); }
    }

    /** The goods and party half of reversing (step -1) or reposting (step 1). */
    method MarkAgain(id: nat, step: int) returns (ok: bool)
      requires Valid() && id < |rows.txns| && (step == 1 || step == -1)
      modifies `rows, `stock, `levels, `movements, `dues, `ledger
      ensures ok <==> step == -1 || StockEffect(old(rows).txns[id].kind) >= 0
                      || Covers(old(rows).items, old(rows).txns[id].lines, old(stock))
      ensures ok ==> rows == MarkedAgain(old(rows), id, step)
      ensures ok ==> StockMoved(rows.items, old(rows).txns[id].lines, StepDirection(old(rows).txns[id].kind, step),
                                old(stock), stock)
      ensures ok ==> LevelsMoved(rows.items, old(rows).txns[id].lines, StepDirection(old(rows).txns[id].kind, step),
                                 Shelf(old(rows).warehouses, old(rows).txns[id].branch), old(levels), levels)
      ensures ok ==> PartiesMoved(old(rows).txns[id], Delta(old(rows).txns[id], old(rows).txns[id].settled), step,
                                  old(dues), dues)
      ensures ok ==> MoneyRefs(rows) && MoneyAgrees(rows, balances) && BillsAgree(rows, paid, owed)
      ensures LedgerAgrees(dues, ledger) && old(ledger) <= ledger
      ensures old(MovementsAgree(levels, movements)) ==> MovementsAgree(levels, movements)
    {
      ghost var d := rows;
      var txn := rows.txns[id];
      assert TxnOk(d, id);
      WellFormedRefs(d);
      var originalPaid := Sum(rows.pays, RowAmount(id));
      rows := rows.(txns := rows.txns[id := txn.(net := txn.net + step)]);
      ok := PostGoods(txn, originalPaid, step == -1);
      if !ok { return; }
      MoneyFollows(d, rows, balances);
      BillsFollow(d, rows, paid, owed);
    }

    /** The stored allocations of a payment, after its payment rows have been dealt with. */
    method ShiftMoney(ghost m: Docs, id: nat, step: int)
      requires id < |rows.txns| && (step == 1 || step == -1)
      requires rows == m.(pays := rows.pays)
      requires MoneyRefs(rows) && MoneyAgrees(rows, balances) && BillsAgree(m, paid, owed)
      requires forall k :: 0 <= k < |rows.allocs| ==> rows.allocs[k].against < |rows.txns|
      requires !IsPayment(rows.txns[id].kind) ==> Reallocated(rows, id, step) == rows
      modifies `rows, `paid, `owed
      ensures rows == Reallocated(old(rows), id, step)
      ensures MoneyRefs(rows) && MoneyAgrees(rows, balances) && BillsAgree(rows, paid, owed)
    {
      ghost var mid := rows;
      BillsFollow(m, rows, paid, owed);
      if IsPayment(rows.txns[id].kind) {
        ShiftAllocations(id, step);
        MoneyFollows(mid, rows, balances);
      }
    }

    // ----- Operations -----

    /** What a failed transaction leaves: everything as it was. */
    twostate predicate Untouched()
      reads this
    {
      && rows == old(rows) && stock == old(stock) && levels == old(levels) && movements == old(movements)
      && dues == old(dues) && ledger == old(ledger) && balances == old(balances) && paid == old(paid)
         && owed == old(owed)
    }

    /** Histories only grow, and levels stay explained by their movements if they were. */
    twostate predicate Recorded()
      reads this
    {
      && old(ledger) <= ledger
      && (old(MovementsAgree(levels, movements)) ==> MovementsAgree(levels, movements))
    }

    /** A document is written down and, unless it is held, posted; or it is refused as a whole. */
    method CreateTxn(f: Draft) returns (ok: bool)
      requires Valid()
      modifies this
      ensures ok <==> CreateOk(old(rows), f)
      ensures ok ==> rows == Create(old(rows), f)
      ensures !ok ==> Untouched()
      ensures Valid() && Recorded()
    {
      hide WellFormed, StockAgrees, PartiesAgree, MoneyAgrees, BillsAgree, LedgerAgrees, MovementsAgree, PostOk, Post;
      hide DraftOk, Create, Inserted;
      if !DraftOk(rows, f) { return false; }
      var saved := (rows, stock, levels, movements, dues, ledger, balances, paid, owed);
      ok := WriteDown(f);
      if !ok {
        rows, stock, levels, movements, dues := saved.0, saved.1, saved.2, saved.3, saved.4;
        ledger, balances, paid, owed := saved.5, saved.6, saved.7, saved.8;
      }
    }

    /** Creation up to the point where it succeeds or has to be rolled back. */
    method WriteDown(f: Draft) returns (ok: bool)
      requires Valid() && DraftOk(rows, f)
      modifies this
      ensures ok <==> CreateOk(old(rows), f)
      ensures ok ==> rows == Create(old(rows), f) && Valid() && Recorded()
    {
      var id := |rows.txns|;
      Insert(f);
      if f.OnHold() { return true; }
      ok := PostEffects(id, KeptPayments(f), f.allocations);
    }

    method Insert(f: Draft)
      requires Valid() && DraftOk(rows, f)
      modifies `rows, `paid, `owed
      ensures rows == Inserted(old(rows), f) && Valid()
      ensures !f.OnHold() ==> Fresh(rows, |old(rows).txns|)
      ensures Delta(NewTxn(f), Sum(KeptPayments(f), NonDebt())) == Delta(NewTxn(f), BasePaid(f))
    {
      ghost var d := rows;
      InsertKeepsWellFormed(d, f);
      InsertMovesNothing(d, NewTxn(f));
      InsertBills(d, NewTxn(f));
      InsertMoney(d, f, balances);
      rows := Inserted(rows, f);
      paid := paid + [BasePaid(f)];
      owed := owed + [f.total - BasePaid(f)];
    }

    /** A held bill is charged, with the lines as last edited. */
    method ResumeHeld(id: nat, edit: Option<Edit>, ps: seq<PayIn>) returns (ok: bool)
      requires Valid()
      modifies this
      ensures ok <==> ResumeOk(old(rows), id, edit, ps)
      ensures ok ==> rows == Resume(old(rows), id, edit, ps)
      ensures !ok ==> Untouched()
      ensures Valid() && Recorded()
    {
      if id >= |rows.txns| || !rows.txns[id].status.Held? || !EditOk(rows, edit) { return false; }
      if Sum(ps, NonDebt()) > Edited(rows.txns[id], edit).total { return false; }
      var saved := (rows, stock, levels, movements, dues, ledger, balances, paid, owed);
      ok := ChargeAndPost(id, edit, ps);
      if !ok {
        rows, stock, levels, movements, dues := saved.0, saved.1, saved.2, saved.3, saved.4;
        ledger, balances, paid, owed := saved.5, saved.6, saved.7, saved.8;
      }
    }

    /** Resuming up to the point where it succeeds or has to be rolled back. */
    method ChargeAndPost(id: nat, edit: Option<Edit>, ps: seq<PayIn>) returns (ok: bool)
      requires Valid() && id < |rows.txns| && rows.txns[id].status.Held? && EditOk(rows, edit)
      requires Sum(ps, NonDebt()) <= Edited(rows.txns[id], edit).total
      modifies this
      ensures ok <==> ResumeOk(old(rows), id, edit, ps)
      ensures ok ==> rows == Resume(old(rows), id, edit, ps) && Valid() && Recorded()
    {
      Charge(id, edit, ps);
      ok := PostEffects(id, ps, []);
    }

    method Charge(id: nat, edit: Option<Edit>, ps: seq<PayIn>)
      requires Valid() && id < |rows.txns| && rows.txns[id].status.Held? && EditOk(rows, edit)
      modifies `rows, `paid, `owed
      ensures rows == Charged(old(rows), id, edit, ps) && Valid() && Fresh(rows, id)
    {
      ghost var d := rows;
      WellFormedRefs(d);
      ChargeIsFresh(d, id, edit, ps);
      ChargeMovesNothing(d, id, edit, ps, stock, levels, dues);
      ChargeBills(d, id, edit, ps, paid, owed);
      rows := Charged(rows, id, edit, ps);
      paid := paid[id := Sum(ps, NonDebt())];
      owed := owed[id := rows.txns[id].total - Sum(ps, NonDebt())];
      MoneyFollows(d, rows, balances);
    }

    /** A document goes to the recycle bin: its effects are taken back. */
    method DeleteTxn(id: nat) returns (ok: bool)
      requires Valid()
      modifies this
      ensures ok <==> DeleteOk(old(rows), id)
      ensures ok ==> rows == Delete(old(rows), id)
      ensures !ok ==> Untouched()
      ensures Valid() && Recorded()
    {
      hide WellFormed, StockAgrees, PartiesAgree, MoneyAgrees, BillsAgree, LedgerAgrees;
      if !DeleteOk(rows, id) { return false; }
      var txn := rows.txns[id];
      if !txn.status.Held? { UnpostEffects(id); }
      SetFlags(Flagged(Reopened(rows.txns, txn.source), id, true));
      return true;
    }

    /** A document comes back from the recycle bin: its stored effects are posted again. */
    method RestoreTxn(id: nat) returns (ok: bool)
      requires Valid()
      modifies this
      ensures ok <==> RestoreOk(old(rows), id)
      ensures ok ==> rows == Restore(old(rows), id)
      ensures !ok ==> Untouched()
      ensures Valid() && Recorded()
    {
      hide WellFormed, StockAgrees, PartiesAgree, MoneyAgrees, BillsAgree, LedgerAgrees;
      if id >= |rows.txns| || !rows.txns[id].deleted { return false; }
      var saved := (rows, stock, levels, movements, dues, ledger, balances, paid, owed);
      if !rows.txns[id].status.Held? {
        ok := RepostEffects(id);
        if !ok {
          rows, stock, levels, movements, dues := saved.0, saved.1, saved.2, saved.3, saved.4;
          ledger, balances, paid, owed := saved.5, saved.6, saved.7, saved.8;
          return;
        }
      }
      SetFlags(Flagged(rows.txns, id, false));
      return true;
    }

    /** Statuses and deletion marks change; no figure does. */
    method SetFlags(txns: seq<Txn>)
      requires Valid() && |txns| == |rows.txns|
      requires forall k :: 0 <= k < |txns| ==>
                 SameFigures(rows.txns[k], txns[k])
                 && (txns[k].status.Held? ==> rows.txns[k].status.Held? || NeverMoved(rows, k))
      modifies `rows
      ensures rows == old(rows).(txns := txns) && Valid()
    {
      ghost var d := rows;
      WellFormedRefs(d);
      rows := rows.(txns := txns);
      FlagsKeepWellFormed(d, rows);
      FiguresDecide(d, rows);
      MoneyFollows(d, rows, balances);
    }

    /** A conversion claims its source, once; a receipt of part of an order leaves it open. */
    method ClaimSource(id: nat, lines: Option<seq<Line>>) returns (ok: bool)
      requires Valid()
      modifies `rows
      ensures ok <==> ClaimOk(old(rows), id)
      ensures rows == if ok then Claim(old(rows), id, lines) else old(rows)
      ensures Valid()
    {
      if !ClaimOk(rows, id) { return false; }
      SetFlags(Claim(rows, id, lines).txns);
      return true;
    }

    /** A conversion that failed gives the source back the status it had. */
    method ReleaseSource(id: nat, seen: Status) returns (ok: bool)
      requires Valid()
      modifies `rows
      ensures ok <==> ReleaseOk(old(rows), id, seen)
      ensures rows == if ok then WithStatus(old(rows), id, seen) else old(rows)
      ensures Valid()
    {
      if !ReleaseOk(rows, id, seen) { return false; }
      SetFlags(WithStatus(rows, id, seen).txns);
      return true;
    }

    /** An invoice that has come back in full is marked as refunded. */
    method MarkRefunded(id: nat) returns (ok: bool)
      requires Valid()
      modifies `rows
      ensures ok <==> MarkOk(old(rows), id)
      ensures rows == if ok then WithStatus(old(rows), id, Refunded) else old(rows)
      ensures Valid()
    {
      if !MarkOk(rows, id) { return false; }
      SetFlags(WithStatus(rows, id, Refunded).txns);
      return true;
    }

    // ----- Cash and bank -----

    /** A cheque in hand is paid into an account, once. */
    method SettleCheque(k: nat, a: nat) returns (ok: bool)
      requires Valid()
      modifies `rows, `balances
      ensures ok <==> SettleOk(old(rows), k, a)
      ensures ok ==> rows == Settle(old(rows), k, a)
      ensures !ok ==> Untouched()
      ensures Valid()
    {
      if !SettleOk(rows, k, a) { return false; }
      RewriteSlip(k, ClosedSlip(a), a, Signed(rows.pays[k]));
      return true;
    }

    /** A settled cheque comes back into hand; its account gives the money back. */
    method ReopenCheque(k: nat) returns (ok: bool)
      requires Valid()
      modifies `rows, `balances
      ensures ok <==> ReopenOk(old(rows), k)
      ensures ok ==> rows == Reopen(old(rows), k)
      ensures !ok ==> Untouched()
      ensures Valid()
    {
      if !ReopenOk(rows, k) { return false; }
      WellFormedRefs(rows);
      assert PayRefs(rows.accounts, rows.pays[k]);
      RewriteSlip(k, OpenSlip, rows.pays[k].slip.account, -Signed(rows.pays[k]));
      return true;
    }

    method RewriteSlip(k: nat, slip: Slip, a: nat, change: real)
      requires Valid() && k < |rows.pays| && !rows.pays[k].slip.NoSlip? && a < |rows.accounts|
      requires (slip == ClosedSlip(a) && rows.pays[k].slip.OpenSlip? && change == Signed(rows.pays[k]))
               || (slip == OpenSlip && rows.pays[k].slip == ClosedSlip(a) && change == -Signed(rows.pays[k]))
      modifies `rows, `balances
      ensures rows == old(rows).(pays := old(rows).pays[k := old(rows).pays[k].(slip := slip)]) && Valid()
    {
      ghost var d := rows;
      WellFormedRefs(d);
      assert PayRefs(d.accounts, d.pays[k]);
      RewriteRow(k, rows.pays[k].(slip := slip), Some(a), change);
      MoneyTablesKeepWellFormed(d, rows);
      GoodsFollow(d, rows, stock, levels, dues);
      BillsFollow(d, rows, paid, owed);
    }

    /** Money moves between accounts, or one account is corrected. */
    method CreateTransfer(x: Transfer) returns (ok: bool)
      requires Valid()
      modifies `rows, `balances
      ensures ok <==> MoveMoneyOk(old(rows), x)
      ensures ok ==> rows == MoveMoney(old(rows), x)
      ensures ok ==> Sum(balances, Itself()) == Sum(old(balances), Itself())
                     + (if NeedsTo(x.kind) then x.amount else 0.0) - (if NeedsFrom(x.kind) then x.amount else 0.0)
      ensures !ok ==> Untouched()
      ensures Valid()
    {
      if !MoveMoneyOk(rows, x) { return false; }
      ghost var d := rows;
      MoveBalances(x);
      rows := MoveMoney(rows, x);
      TransferColumns(d, x, old(balances), balances);
      GoodsFollow(d, rows, stock, levels, dues);
      BillsFollow(d, rows, paid, owed);
      return true;
    }

    method MoveBalances(x: Transfer)
      requires NeedsFrom(x.kind) ==> x.from.Some? && x.from.value < |balances|
      requires NeedsTo(x.kind) ==> x.to.Some? && x.to.value < |balances|
      modifies `balances
      ensures |balances| == |old(balances)|
      ensures forall a: nat :: a < |balances| ==> balances[a] == old(balances)[a] + TransferMoney(a)(x)
      ensures Sum(balances, Itself()) == Sum(old(balances), Itself())
                     + (if NeedsTo(x.kind) then x.amount else 0.0) - (if NeedsFrom(x.kind) then x.amount else 0.0)
    {
      if NeedsFrom(x.kind) {
        SumUpdate(balances, x.from.value, balances[x.from.value] - x.amount, Itself());
        balances := balances[x.from.value := balances[x.from.value] - x.amount];
      }
      if NeedsTo(x.kind) {
        SumUpdate(balances, x.to.value, balances[x.to.value] + x.amount, Itself());
        balances := balances[x.to.value := balances[x.to.value] + x.amount];
      }
    }

    static function Itself(): real -> real { (x: real) => x }

    /** A loan pays cash into an account, or a repayment takes it out. */
    method CreateLoanTxn(a: nat, amount: real, repayment: bool) returns (ok: bool)
      requires Valid()
      modifies `rows, `balances
      ensures ok <==> LoanOk(old(rows), a, amount)
      ensures ok ==> rows == LoanCash(old(rows), a, amount, repayment)
      ensures !ok ==> Untouched()
      ensures Valid()
    {
      if !LoanOk(rows, a, amount) { return false; }
      ghost var d := rows;
      var change := if repayment then -amount else amount;
      balances := balances[a := balances[a] + change];
      rows := LoanCash(rows, a, amount, repayment);
      forall b: nat | b < |balances| ensures balances[b] == AccountDue(rows, b) {
        SumAppend(d.loans, LoanLeg(a, change), LoanMoney(b));
      }
      forall k | 0 <= k < |rows.stockOps| ensures OpOk(rows, rows.stockOps[k]) { assert OpOk(d, d.stockOps[k]); }
      forall k | 0 <= k < |rows.transfers|
        ensures TransferOk(rows, rows.transfers[k])
      {
        assert TransferOk(d, d.transfers[k]);
      }
      OtherTablesKeepWellFormed(d, rows);
      GoodsFollow(d, rows, stock, levels, dues);
      BillsFollow(d, rows, paid, owed);
      return true;
    }

    /** A new money account starts at its opening balance. */
    method CreateAccount(x: Account)
      requires Valid()
      modifies `rows, `balances
      ensures rows == AddAccount(old(rows), x)
      ensures Valid()
    {
      ghost var d := rows;
      WellFormedRefs(d);
      OpenAccount(d, x);
      rows := AddAccount(rows, x);
      balances := balances + [x.opening];
      MoneyTablesKeepWellFormed(d, rows);
      GoodsFollow(d, rows, stock, levels, dues);
      BillsFollow(d, rows, paid, owed);
    }

    // ----- Parties, items and stock outside documents -----

    /** A new party starts at its signed opening balance, explained by an opening ledger line. */
    method CreateParty(opening: real, branch: Option<nat>)
      requires Valid()
      modifies `rows, `dues, `ledger
      ensures rows == AddParty(old(rows), opening)
      ensures Valid() && old(ledger) <= ledger
    {
      ghost var d := rows;
      var p := |dues|;
      WellFormedRefs(d);
      NewPartyZero(d, opening);
      rows := AddParty(rows, opening);
      NewLedger(dues, ledger);
      dues := dues + [0.0];
      if opening != 0.0 {
        EnterLedger(p, branch, opening);
      }
      MoneyFollows(d, rows, balances);
      BillsFollow(d, rows, paid, owed);
      forall i: nat, w: nat
        ensures LevelAt(levels, i, w) == LevelDue(rows, i, w)
      {
        assert LevelDue(rows, i, w) == LevelDue(d, i, w);
      }
    }

    /** A new item, with its opening stock placed at the branch's warehouse. */
    method CreateItem(x: Item, opening: real, branch: Option<nat>)
      requires Valid() && ItemOk(x)
      modifies `rows, `stock, `levels, `movements
      ensures rows == AddItem(old(rows), x, opening, branch)
      ensures Valid() && Recorded()
    {
      ghost var d := rows;
      var i := |rows.items|;
      NewItem(d, CleanItem(x), stock, levels);
      var placed := opening > 0.0 && CleanItem(x).trackStock && branch.Some?;
      rows := rows.(items := rows.items + [CleanItem(x)]);
      stock := stock + [0.0];
      WellFormedRefs(d);
      MoneyFollows(d, rows, balances);
      BillsFollow(d, rows, paid, owed);
      PartiesLookAt(d, rows, dues);
      BookStock(i, if placed then branch else None, if x.service then 0.0 else opening);
    }

    /** A stock change booked on the item itself, at the branch's warehouse if there is one. */
    method BookStock(i: nat, branch: Option<nat>, change: real)
      requires Valid() && i < |rows.items|
      modifies `rows, `stock, `levels, `movements
      ensures rows == AdjustItem(old(rows), i, change, branch)
      ensures Valid() && Recorded()
    {
      ghost var d, s0, l0 := rows, stock, levels;
      WellFormedRefs(d);
      if branch.Some? { HomeStable(rows.warehouses, branch.value, branch.value); }
      ApplyLine(i, branch, change);
      var at := if branch.Some? then Home(rows.warehouses, branch.value) else None;
      var op := StockOp(i, at, change, true);
      rows := rows.(stockOps := rows.stockOps + [op]);
      forall j: nat, w: nat ensures LevelAt(levels, j, w) == LevelAt(l0, j, w) + OpLevel(j, w)(op) { }
      OpColumns(d, rows, op, s0, stock, l0, levels);
      MoneyFollows(d, rows, balances);
      BillsFollow(d, rows, paid, owed);
      PartiesLookAt(d, rows, dues);
    }

    /** Adding to, or reducing, an item's stock by hand. */
    method AdjustStock(i: nat, quantity: real, reduce: bool, branch: Option<nat>) returns (ok: bool)
      requires Valid()
      modifies `rows, `stock, `levels, `movements
      ensures ok <==> AdjustItemOk(old(rows), i, quantity)
      ensures ok ==> rows == AdjustItem(old(rows), i, if reduce then -quantity else quantity, branch)
      ensures !ok ==> Untouched()
      ensures Valid() && Recorded()
    {
      if !AdjustItemOk(rows, i, quantity) { return false; }
      BookStock(i, branch, if reduce then -quantity else quantity);
      return true;
    }

    /** Adjusting the stock of one warehouse. */
    method AdjustWarehouse(i: nat, w: nat, change: real) returns (ok: bool)
      requires Valid()
      modifies `rows, `stock, `levels, `movements
      ensures ok <==> AtWarehouseOk(old(rows), i, w)
      ensures ok ==> rows == AdjustAt(old(rows), i, w, change)
      ensures !ok ==> Untouched()
      ensures Valid() && Recorded()
    {
      if !AtWarehouseOk(rows, i, w) { return false; }
      ghost var d, s0, l0 := rows, stock, levels;
      WellFormedRefs(d);
      Shift(i, w, change);
      stock := stock[i := stock[i] + change];
      rows := AdjustAt(rows, i, w, change);
      OpColumns(d, rows, StockOp(i, Some(w), change, true), s0, stock, l0, levels);
      MoneyFollows(d, rows, balances);
      BillsFollow(d, rows, paid, owed);
      PartiesLookAt(d, rows, dues);
      return true;
    }

    /** Moving stock between two warehouses.  Both levels are read before either is written, so
        naming the same warehouse twice leaves it with the quantity added and not taken out. */
    method TransferBetween(i: nat, from: nat, to: nat, quantity: real) returns (ok: bool)
      requires Valid()
      modifies `rows, `levels, `movements
      ensures ok <==> AtWarehouseOk(old(rows), i, from) && AtWarehouseOk(old(rows), i, to)
                      && (i, from) in old(levels) && old(levels)[(i, from)] >= quantity
      ensures ok ==> rows == TransferStock(old(rows), i, from, to, quantity)
      ensures !ok ==> Untouched()
      ensures Valid()
      ensures ok && old(MovementsAgree(levels, movements))
              ==> (MovementsAgree(levels, movements) <==> from != to || quantity == 0.0)
    {
      if !AtWarehouseOk(rows, i, from) || !AtWarehouseOk(rows, i, to) { return false; }
      if (i, from) !in levels || levels[(i, from)] < quantity { return false; }
      var fromLevel, toLevel := levels[(i, from)], LevelAt(levels, i, to);
      var after := levels[(i, from) := fromLevel - quantity][(i, to) := toLevel + quantity];
      TransferStockColumns(rows, i, from, to, quantity, stock, levels, after);
      TransferStockElsewhere(rows, i, from, to, quantity, dues, balances, paid, owed);
      if MovementsAgree(levels, movements) { TransferExplained(levels, movements, i, from, to, quantity); }
      hide WellFormed, StockAgrees, PartiesAgree, MoneyAgrees, BillsAgree, LedgerAgrees, MovementsAgree;
      levels := after;
      movements := movements + [Movement(i, from, -quantity), Movement(i, to, quantity)];
      rows := TransferStock(rows, i, from, to, quantity);
      return true;
    }

    // ----- Verify my data -----

    /** Recomputes balances from ledger, levels and bills, reports what is off by more than a
        paisa (or a thousandth of a unit), and on request overwrites it. */
    method VerifyData(fix: bool, c: Scope) returns (issues: seq<Issue>)
      requires |dues| == |rows.parties| && |stock| == |rows.items| && |paid| == |owed| == |rows.txns|
      modifies `dues, `stock, `owed
      ensures |dues| == |old(dues)| && |stock| == |old(stock)| && |owed| == |old(owed)|
      ensures forall p: nat :: p < |dues|
                ==> (PartyDrifts(ledger, old(dues), c, p)
                     <==> PartyIssue(p, Sum(ledger, EntryIn(c, p)), old(dues)[p]) in issues)
      ensures forall i: nat :: i < |stock|
                ==> (ItemDrifts(rows, levels, old(stock), c, i)
                     <==> ItemIssue(i, LevelSum(levels, c, i, |rows.warehouses|), old(stock)[i]) in issues)
      ensures forall x: nat :: x < |owed|
                ==> (TxnDrifts(rows, paid, old(owed), c, x)
                     <==> TxnIssue(x, rows.txns[x].total, paid[x] + old(owed)[x]) in issues)
      ensures issues == [] <==> NoDrift(rows, ledger, levels, paid, old(dues), old(stock), old(owed), c)
      ensures fix ==> NoDrift(rows, ledger, levels, paid, dues, stock, owed, c)
      ensures fix ==> forall p: nat :: p < |dues| ==> dues[p] == PartyFixed(ledger, old(dues), c, p)
      ensures fix ==> forall i: nat :: i < |stock| ==> stock[i] == ItemFixed(rows, levels, old(stock), c, i)
      ensures !fix ==> dues == old(dues) && stock == old(stock) && owed == old(owed)
    {
      var parties := VerifyParties(fix, c);
      var items := VerifyItems(fix, c);
      var bills := VerifyBills(fix, c);
      issues := parties + items + bills;
      if |parties| > 0 { assert PartyDrifts(ledger, old(dues), c, parties[0].party); }
      if |items| > 0 { assert ItemDrifts(rows, levels, old(stock), c, items[0].item); }
      if |bills| > 0 { assert TxnDrifts(rows, paid, old(owed), c, bills[0].txn); }
    }

    method VerifyParties(fix: bool, c: Scope) returns (issues: seq<Issue>)
      modifies `dues
      ensures |dues| == |old(dues)| && (!fix ==> dues == old(dues))
      ensures forall k :: 0 <= k < |issues|
                ==> issues[k].PartyIssue? && issues[k].party < |dues|
                    && PartyDrifts(ledger, old(dues), c, issues[k].party)
      ensures forall p: nat :: p < |dues|
                ==> (PartyDrifts(ledger, old(dues), c, p)
                     <==> PartyIssue(p, Sum(ledger, EntryIn(c, p)), old(dues)[p]) in issues)
      ensures fix ==> forall p: nat :: p < |dues| ==> dues[p] == PartyFixed(ledger, old(dues), c, p)
      ensures fix ==> forall p: nat :: p < |dues| ==> !PartyDrifts(ledger, dues, c, p)
    {
      issues := [];
      for p := 0 to |dues|
        invariant |dues| == |old(dues)| && (!fix ==> dues == old(dues))
        invariant forall q :: p <= q < |dues| ==> dues[q] == old(dues)[q]
        invariant forall k :: 0 <= k < |issues|
                    ==> issues[k].PartyIssue? && issues[k].party < p
                        && PartyDrifts(ledger, old(dues), c, issues[k].party)
        invariant forall q: nat :: q < p
                    ==> (PartyDrifts(ledger, old(dues), c, q)
                         <==> PartyIssue(q, Sum(ledger, EntryIn(c, q)), old(dues)[q]) in issues)
        invariant fix ==> forall q: nat :: q < p ==> dues[q] == PartyFixed(ledger, old(dues), c, q)
        invariant fix ==> forall q: nat :: q < p ==> !PartyDrifts(ledger, dues, c, q)
      {
        var expected := Sum(ledger, EntryIn(c, p));
        if InScope(c, ShopOf(c.parties, p)) && Gap(expected, dues[p]) > 0.01 {
          issues := issues + [PartyIssue(p, expected, dues[p])];
          ghost var before := dues;
          if fix { dues := dues[p := expected]; }
          assert forall q: nat :: q < p ==> PartyDrifts(ledger, dues, c, q) == PartyDrifts(ledger, before, c, q);
        }
      }
    }

    method VerifyItems(fix: bool, c: Scope) returns (issues: seq<Issue>)
      requires |stock| == |rows.items|
      modifies `stock
      ensures |stock| == |old(stock)| && (!fix ==> stock == old(stock))
      ensures forall k :: 0 <= k < |issues|
                ==> issues[k].ItemIssue? && issues[k].item < |stock|
                    && ItemDrifts(rows, levels, old(stock), c, issues[k].item)
      ensures forall i: nat :: i < |stock|
                ==> (ItemDrifts(rows, levels, old(stock), c, i)
                     <==> ItemIssue(i, LevelSum(levels, c, i, |rows.warehouses|), old(stock)[i]) in issues)
      ensures fix ==> forall i: nat :: i < |stock| ==> stock[i] == ItemFixed(rows, levels, old(stock), c, i)
      ensures fix ==> forall i: nat :: i < |stock| ==> !ItemDrifts(rows, levels, stock, c, i)
    {
      issues := [];
      for i := 0 to |stock|
        invariant |stock| == |old(stock)| && (!fix ==> stock == old(stock))
        invariant forall q :: i <= q < |stock| ==> stock[q] == old(stock)[q]
        invariant forall k :: 0 <= k < |issues|
                    ==> issues[k].ItemIssue? && issues[k].item < i
                        && ItemDrifts(rows, levels, old(stock), c, issues[k].item)
        invariant forall q: nat :: q < i
                    ==> (ItemDrifts(rows, levels, old(stock), c, q)
                         <==> ItemIssue(q, LevelSum(levels, c, q, |rows.warehouses|), old(stock)[q]) in issues)
        invariant fix ==> forall q: nat :: q < i ==> stock[q] == ItemFixed(rows, levels, old(stock), c, q)
        invariant fix ==> forall q: nat :: q < i ==> !ItemDrifts(rows, levels, stock, c, q)
      {
        var expected := LevelSum(levels, c, i, |rows.warehouses|);
        if rows.items[i].trackStock && InScope(c, ShopOf(c.items, i)) && Gap(expected, stock[i]) > 0.001 {
          issues := issues + [ItemIssue(i, expected, stock[i])];
          ghost var before := stock;
          if fix { stock := stock[i := expected]; }
          assert forall q: nat :: q < i
                   ==> ItemDrifts(rows, levels, stock, c, q) == ItemDrifts(rows, levels, before, c, q);
        }
      }
    }

    method VerifyBills(fix: bool, c: Scope) returns (issues: seq<Issue>)
      requires |paid| == |owed| == |rows.txns|
      modifies `owed
      ensures |owed| == |old(owed)| && (!fix ==> owed == old(owed))
      ensures forall k :: 0 <= k < |issues|
                ==> issues[k].TxnIssue? && issues[k].txn < |owed| && TxnDrifts(rows, paid, old(owed), c, issues[k].txn)
      ensures forall x: nat :: x < |owed|
                ==> (TxnDrifts(rows, paid, old(owed), c, x)
                     <==> TxnIssue(x, rows.txns[x].total, paid[x] + old(owed)[x]) in issues)
      ensures fix ==> forall x: nat :: x < |owed| ==> !TxnDrifts(rows, paid, owed, c, x)
    {
      issues := [];
      for x := 0 to |owed|
        invariant |owed| == |old(owed)| && (!fix ==> owed == old(owed))
        invariant forall q :: x <= q < |owed| ==> owed[q] == old(owed)[q]
        invariant forall k :: 0 <= k < |issues|
                    ==> issues[k].TxnIssue? && issues[k].txn < x && TxnDrifts(rows, paid, old(owed), c, issues[k].txn)
        invariant forall q: nat :: q < x
                    ==> (TxnDrifts(rows, paid, old(owed), c, q)
                         <==> TxnIssue(q, rows.txns[q].total, paid[q] + old(owed)[q]) in issues)
        invariant fix ==> forall q: nat :: q < x ==> !TxnDrifts(rows, paid, owed, c, q)
      {
        var txn := rows.txns[x];
        if IsBill(txn) && InScope(c, txn.branch) && Gap(txn.total, paid[x] + owed[x]) > 0.01 {
          issues := issues + [TxnIssue(x, txn.total, paid[x] + owed[x])];
          ghost var before := owed;
          if fix { owed := owed[x := txn.total - paid[x]]; }
          assert forall q: nat :: q < x ==> TxnDrifts(rows, paid, owed, c, q) == TxnDrifts(rows, paid, before, c, q);
        }
      }
    }

    // ----- The start -----

    /** A new business: some warehouses and nothing else. */
    constructor (warehouses: seq<Option<nat>>)
      ensures Valid() && MovementsAgree(levels, movements)
      ensures rows == Docs([], warehouses, [], [], [], [], [], [], [], [])
    {
      rows := Docs([], warehouses, [], [], [], [], [], [], [], []);
      stock, levels, movements, dues, ledger, balances, paid, owed := [], map[], [], [], [], [], [], [];
    }
  }
}
