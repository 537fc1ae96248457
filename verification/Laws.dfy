/**
  How the recomputed totals react to a change in the rows.

  Each law is about one kind of change: a warehouse that is claimed or added for a branch, rows that
  differ only in what no total looks at, a document that enters the table unposted, one whose effect is
  added or taken back, an account that is opened.  After these come the laws for the loops: stock moved
  line by line, allocations applied one by one, stored allocations taken back or given again row by row.
*/
module Laws {
  import opened Wrappers
  import opened Sums
  import opened Books
  import opened Steps

  lemma WeighStep(n: int, x: real)
    ensures Weigh(n + 1, x) == Weigh(n, x) + x
    ensures Weigh(n - 1, x) == Weigh(n, x) - x
  {
  }

  lemma {:induction false} WeighZero(n: int)
    ensures Weigh(n, 0.0) == 0.0
    decreases if n < 0 then -n else n
  {
    if n > 0 { WeighZero(n - 1); } else if n < 0 { WeighZero(n + 1); }
  }

  // ----- Demand -----

  lemma LineDemandPositive(items: seq<Item>, l: Line, i: nat)
    requires forall k :: 0 <= k < |items| ==> ItemOk(items[k])
    requires LineOk(items, l)
    ensures LineDemand(items, i)(l) >= 0.0
    ensures l.item == Some(i) && i < |items| && Tracked(items[i])
            ==> LineDemand(items, i)(l) == LineQuantity(items[i], l) > 0.0
  {
    if l.item == Some(i) && i < |items| {
      assert ItemOk(items[i]);
      assert items[i].rate.Some? ==> l.quantity * items[i].rate.value > 0.0;
    }
  }

  lemma DemandGrows(items: seq<Item>, lines: seq<Line>, k: nat, i: nat)
    requires k <= |lines|
    requires forall j :: 0 <= j < |items| ==> ItemOk(items[j])
    requires forall j :: 0 <= j < |lines| ==> LineOk(items, lines[j])
    ensures 0.0 <= Demand(items, lines[..k], i) <= Demand(items, lines, i)
  {
    forall j | 0 <= j < |lines| ensures LineDemand(items, i)(lines[j]) >= 0.0 {
      LineDemandPositive(items, lines[j], i);
    }
    SumPrefix(lines, k, LineDemand(items, i));
  }

  lemma NoTrackedNoDemand(items: seq<Item>, lines: seq<Line>, i: nat)
    requires !HasTracked(items, lines)
    ensures Demand(items, lines, i) == 0.0
  {
    forall k | 0 <= k < |lines| ensures LineDemand(items, i)(lines[k]) == 0.0 {
      assert !LineTracked(items, lines[k]);
    }
    SumZero(lines, LineDemand(items, i));
  }

  // ----- Warehouses -----

  lemma HomeStable(ws: seq<Option<nat>>, b: nat, c: nat)
    ensures c != b || Home(ws, b).Some? ==> Home(ResolveWarehouse(ws, b), c) == Home(ws, c)
    ensures |ws| > 0 ==> Home(ResolveWarehouse(ws, b), b).Some? && |ResolveWarehouse(ws, b)| > 0
    ensures ResolveWarehouse(ResolveWarehouse(ws, b), b) == ResolveWarehouse(ws, b)
    ensures |ResolveWarehouse(ws, b)| >= |ws|
  {
    var ws' := ResolveWarehouse(ws, b);
    var old_, new_ := Home(ws, c), Home(ws', c);
    if ws' != ws {
      assert forall j :: 0 <= j < |ws| ==> ws'[j] == ws[j] || (j == 0 && ws'[0] == Some(b) && ws[0].None?);
      assert Home(ws', b).Some? by {
        assert ws'[0] == Some(b) || ws'[|ws'| - 1] == Some(b);
      }
    }
  }

  /** Assigning a warehouse to a branch changes no level: nothing was posted there before. */
  lemma ResolveKeepsLevels(d: Docs, b: nat, i: nat, w: nat)
    requires forall id :: 0 <= id < |d.txns| ==> HomeOk(d, d.txns[id])
    ensures LevelDue(d.(warehouses := ResolveWarehouse(d.warehouses, b)), i, w) == LevelDue(d, i, w)
  {
    var ws, ws' := d.warehouses, ResolveWarehouse(d.warehouses, b);
    var f, g := TxnLevel(d.items, ws, i, w), TxnLevel(d.items, ws', i, w);
    forall k | 0 <= k < |d.txns| ensures f(d.txns[k]) == g(d.txns[k]) {
      var t := d.txns[k];
      assert HomeOk(d, t);
      if t.branch.Some? {
        HomeStable(ws, b, t.branch.value);
        if Home(ws, t.branch.value) != Home(ws', t.branch.value) {
          if !HasTracked(d.items, t.lines) { NoTrackedNoDemand(d.items, t.lines, i); }
          WeighZero(t.net);
        }
      }
    }
    SumPointwise(d.txns, d.txns, f, g);
  }

  lemma ResolveKeepsHomes(d: Docs, b: nat)
    requires forall id :: 0 <= id < |d.txns| ==> HomeOk(d, d.txns[id])
    ensures var d' := d.(warehouses := ResolveWarehouse(d.warehouses, b));
            forall id :: 0 <= id < |d.txns| ==> HomeOk(d', d.txns[id])
  {
    var d' := d.(warehouses := ResolveWarehouse(d.warehouses, b));
    forall id | 0 <= id < |d.txns| ensures HomeOk(d', d.txns[id]) {
      assert HomeOk(d, d.txns[id]);
      if d.txns[id].branch.Some? { HomeStable(d.warehouses, b, d.txns[id].branch.value); }
    }
  }

  // ----- Rows that differ only in what no total looks at -----

  lemma FiguresDecide(d: Docs, d': Docs)
    requires d' == d.(txns := d'.txns)
    requires |d.txns| == |d'.txns|
    requires forall k :: 0 <= k < |d.txns| ==> SameFigures(d.txns[k], d'.txns[k])
    ensures forall i: nat :: StockDue(d', i) == StockDue(d, i)
    ensures forall i: nat, w: nat :: LevelDue(d', i, w) == LevelDue(d, i, w)
    ensures forall p: nat :: p < |d.parties| ==> PartyDue(d', p) == PartyDue(d, p)
    ensures forall x: nat :: x < |d.txns| ==> PaidDue(d', x) == PaidDue(d, x)
  {
    forall i: nat ensures StockDue(d', i) == StockDue(d, i) {
      SumPointwise(d.txns, d'.txns, TxnStock(d.items, i), TxnStock(d.items, i));
    }
    forall i: nat, w: nat ensures LevelDue(d', i, w) == LevelDue(d, i, w) {
      SumPointwise(d.txns, d'.txns, TxnLevel(d.items, d.warehouses, i, w), TxnLevel(d.items, d.warehouses, i, w));
    }
    forall p: nat | p < |d.parties| ensures PartyDue(d', p) == PartyDue(d, p) {
      SumPointwise(d.txns, d'.txns, TxnParty(p), TxnParty(p));
    }
    forall x: nat | x < |d.txns| ensures PaidDue(d', x) == PaidDue(d, x) {
      assert SameFigures(d.txns[x], d'.txns[x]);
    }
  }

  // ----- A document enters the table unposted -----

  lemma InsertMovesNothing(d: Docs, t: Txn)
    requires t.net == 0 && !t.posted
    ensures forall i: nat :: StockDue(d.(txns := d.txns + [t]), i) == StockDue(d, i)
    ensures forall i: nat, w: nat :: LevelDue(d.(txns := d.txns + [t]), i, w) == LevelDue(d, i, w)
    ensures forall p: nat :: p < |d.parties| ==> PartyDue(d.(txns := d.txns + [t]), p) == PartyDue(d, p)
  {
    forall i: nat ensures Sum(d.txns + [t], TxnStock(d.items, i)) == Sum(d.txns, TxnStock(d.items, i)) {
      SumAppend(d.txns, t, TxnStock(d.items, i));
    }
    forall i: nat, w: nat
      ensures Sum(d.txns + [t], TxnLevel(d.items, d.warehouses, i, w))
              == Sum(d.txns, TxnLevel(d.items, d.warehouses, i, w))
    {
      SumAppend(d.txns, t, TxnLevel(d.items, d.warehouses, i, w));
    }
    forall p: nat ensures Sum(d.txns + [t], TxnParty(p)) == Sum(d.txns, TxnParty(p)) {
      SumAppend(d.txns, t, TxnParty(p));
    }
  }

  // ----- Posting, reversing and reposting move the totals by one document -----

  /** What posting a document once adds to a party. */
  function PartyShift(t: Txn, p: nat, delta: real): real {
    if t.kind.P2PTransfer? then
      if t.party.Some? && t.p2pTo.Some? then
        (if t.party.value == p then -t.total else 0.0) + (if t.p2pTo.value == p then t.total else 0.0)
      else 0.0
    else if t.party == Some(p) then delta else 0.0
  }

  /** The stock a document moves at its branch's warehouse. */
  function LevelShift(d: Docs, t: Txn, i: nat, w: nat): real {
    if HomeIs(WarehousesAfter(d, t), t.branch, w) then Moves(d.items, t, i) else 0.0
  }

  /** The table change shared by posting (step 1), reversing (-1) and reposting (1). */
  ghost predicate NetStep(d: Docs, d': Docs, id: nat, t': Txn, step: int) {
    && id < |d.txns|
    && (forall k :: 0 <= k < |d.txns| ==> HomeOk(d, d.txns[k]))
    && t'.kind == d.txns[id].kind && t'.lines == d.txns[id].lines && t'.branch == d.txns[id].branch
    && t'.net == d.txns[id].net + step && (step == 1 || step == -1)
    && d'.items == d.items && d'.stockOps == d.stockOps
    && d'.warehouses == WarehousesAfter(d, d.txns[id])
    && |d'.txns| == |d.txns|
    && (forall k :: 0 <= k < |d.txns| ==> SameFigures(d.txns[id := t'][k], d'.txns[k]))
  }

  lemma NetChangeStock(d: Docs, d': Docs, id: nat, t': Txn, step: int, i: nat)
    requires NetStep(d, d', id, t', step)
    ensures StockDue(d', i) == StockDue(d, i) + Weigh(step, Moves(d.items, t', i))
  {
    var f := TxnStock(d.items, i);
    SumPointwise(d.txns[id := t'], d'.txns, f, f);
    SumUpdate(d.txns, id, t', f);
    WeighStep(d.txns[id].net, Moves(d.items, t', i));
  }

  lemma NetChangeLevel(d: Docs, d': Docs, id: nat, t': Txn, step: int, i: nat, w: nat)
    requires NetStep(d, d', id, t', step)
    ensures LevelDue(d', i, w) == LevelDue(d, i, w) + Weigh(step, LevelShift(d, t', i, w))
  {
    var ws := d'.warehouses;
    var f := TxnLevel(d.items, ws, i, w);
    SumPointwise(d.txns[id := t'], d'.txns, f, f);
    SumUpdate(d.txns, id, t', f);
    WeighStep(d.txns[id].net, Moves(d.items, t', i));
    assert f(t') == f(d.txns[id]) + Weigh(step, LevelShift(d, t', i, w));
    assert LevelDue(d.(warehouses := ws), i, w) == LevelDue(d, i, w) by {
      if ws != d.warehouses { ResolveKeepsLevels(d, t'.branch.value, i, w); }
    }
  }

  lemma NetChangeParty(d: Docs, d': Docs, id: nat, t': Txn, p: nat, shift: real)
    requires id < |d.txns| && p < |d.parties| && d'.parties == d.parties
    requires |d'.txns| == |d.txns|
    requires forall k :: 0 <= k < |d.txns| ==> SameFigures(d.txns[id := t'][k], d'.txns[k])
    requires TxnParty(p)(t') == TxnParty(p)(d.txns[id]) + shift
    ensures PartyDue(d', p) == PartyDue(d, p) + shift
  {
    SumPointwise(d.txns[id := t'], d'.txns, TxnParty(p), TxnParty(p));
    SumUpdate(d.txns, id, t', TxnParty(p));
  }

  // ----- Accounts -----

  /** Opening an account changes no other balance and starts at its opening amount. */
  lemma OpenAccount(d: Docs, x: Account)
    requires MoneyRefs(d)
    ensures var d' := d.(accounts := d.accounts + [x]);
            && MoneyRefs(d')
            && (forall a: nat :: a < |d.accounts| ==> AccountDue(d', a) == AccountDue(d, a))
            && AccountDue(d', |d.accounts|) == x.opening
  {
    var d' := d.(accounts := d.accounts + [x]);
    forall k | 0 <= k < |d.pays| ensures TargetKept(d.accounts, x, d.pays[k]) && PayRefs(d'.accounts, d.pays[k]) {
      assert PayRefs(d.accounts, d.pays[k]);
      FirstTillAppend(d.accounts, x, TillOf(d.pays[k].tender), None);
    }
    forall k | 0 <= k < |d.transfers| ensures TransferOk(d', d.transfers[k]) { assert TransferOk(d, d.transfers[k]); }
    forall a: nat | a < |d.accounts| ensures AccountDue(d', a) == AccountDue(d, a) {
      forall k | 0 <= k < |d.pays| ensures PayMoney(d'.accounts, a)(d.pays[k]) == PayMoney(d.accounts, a)(d.pays[k]) {
        assert TargetKept(d.accounts, x, d.pays[k]) && PayRefs(d.accounts, d.pays[k]);
      }
      SumPointwise(d.pays, d.pays, PayMoney(d'.accounts, a), PayMoney(d.accounts, a));
    }
    var n := |d.accounts|;
    forall k | 0 <= k < |d.pays| ensures PayMoney(d'.accounts, n)(d.pays[k]) == 0.0 {
      assert TargetKept(d.accounts, x, d.pays[k]) && PayRefs(d.accounts, d.pays[k]);
    }
    forall k | 0 <= k < |d.transfers|
      ensures TransferMoney(n)(d.transfers[k]) == 0.0
    {
      assert TransferOk(d, d.transfers[k]);
    }
    SumZero(d.pays, PayMoney(d'.accounts, n));
    SumZero(d.transfers, TransferMoney(n));
    SumZero(d.loans, LoanMoney(n));
  }

  predicate TargetKept(accounts: seq<Account>, x: Account, r: Pay) {
    Target(accounts + [x], r) == Target(accounts, r)
    || (Target(accounts, r).None? && Target(accounts + [x], r) == Some(|accounts|))
  }

  lemma FirstTillAppend(accounts: seq<Account>, x: Account, till: Till, branch: Option<nat>)
    ensures var after := FirstTill(accounts + [x], till, branch);
            if FirstTill(accounts, till, branch).Some? then after == FirstTill(accounts, till, branch)
            else after == (if IsTill(x, till, branch) then Some(|accounts|) else None)
  {
    assert forall j :: 0 <= j < |accounts| ==> (accounts + [x])[j] == accounts[j];
    assert (accounts + [x])[|accounts|] == x;
  }

  /** A payment row changes; every account moves by the change in that row. */
  lemma RewritePay(d: Docs, k: nat, r: Pay, a: nat)
    requires k < |d.pays| && a < |d.accounts|
    ensures AccountDue(d.(pays := d.pays[k := r]), a)
         == AccountDue(d, a) - PayMoney(d.accounts, a)(d.pays[k]) + PayMoney(d.accounts, a)(r)
  {
    SumUpdate(d.pays, k, r, PayMoney(d.accounts, a));
  }

  lemma AddPay(d: Docs, r: Pay, a: nat)
    requires a < |d.accounts|
    ensures AccountDue(d.(pays := d.pays + [r]), a) == AccountDue(d, a) + PayMoney(d.accounts, a)(r)
  {
    SumAppend(d.pays, r, PayMoney(d.accounts, a));
  }

  /** An account a payment resolves to is the one its row's money counts at. */
  lemma ResolvedIsTarget(accounts: seq<Account>, branch: Option<nat>, r: Pay)
    requires r.account.None? ==> branch.None?
    requires Resolve(accounts, branch, r.account, r.tender).Some?
    ensures Resolve(accounts, branch, r.account, r.tender) == Target(accounts, r)
    ensures Target(accounts, r).value < |accounts|
  {
  }

  // ----- Stock moved line by line -----

  ghost predicate StockMoved(items: seq<Item>, lines: seq<Line>, direction: int, before: seq<real>, after: seq<real>) {
    && |after| == |before|
    && (forall i: nat :: i < |after| ==> after[i] == before[i] + Directed(direction, Demand(items, lines, i)))
  }

  function ShelfChange(items: seq<Item>, lines: seq<Line>, direction: int, shelf: Option<nat>, i: nat, w: nat): real {
    if shelf == Some(w) then Directed(direction, Demand(items, lines, i)) else 0.0
  }

  ghost predicate LevelsMoved(items: seq<Item>, lines: seq<Line>, direction: int, shelf: Option<nat>,
                              before: map<(nat, nat), real>, after: map<(nat, nat), real>) {
    forall i: nat, w: nat :: LevelAt(after, i, w)
        == LevelAt(before, i, w) + ShelfChange(items, lines, direction, shelf, i, w)
  }

  /** No item is asked for more than was there: the aggregate form of the oversell guard. */
  ghost predicate Covers(items: seq<Item>, lines: seq<Line>, stock: seq<real>)
    requires |stock| == |items|
  {
    forall i: nat :: i < |items| && Demand(items, lines, i) > 0.0 ==> Demand(items, lines, i) <= stock[i]
  }

  /** What one line of item i adds to a single level. */
  function LineLevel(direction: int, q: real, shelf: Option<nat>, item: nat, i: nat, w: nat): real {
    if i == item && shelf == Some(w) then Directed(direction, q) else 0.0
  }

  ghost predicate LevelsShifted(before: map<(nat, nat), real>, after: map<(nat, nat), real>,
                                direction: int, q: real, shelf: Option<nat>, item: nat) {
    forall i: nat, w: nat :: LevelAt(after, i, w) == LevelAt(before, i, w) + LineLevel(direction, q, shelf, item, i, w)
  }

  lemma DemandStep(items: seq<Item>, lines: seq<Line>, k: nat, i: nat)
    requires k < |lines|
    ensures Demand(items, lines[..k + 1], i) == Demand(items, lines[..k], i) + LineDemand(items, i)(lines[k])
  {
    assert lines[..k + 1] == lines[..k] + [lines[k]];
    SumAppend(lines[..k], lines[k], LineDemand(items, i));
  }

  /** Before the first line nothing has moved. */
  lemma NothingMoved(items: seq<Item>, lines: seq<Line>, direction: int, shelf: Option<nat>, s: seq<real>,
                     l: map<(nat, nat), real>)
    requires |s| == |items|
    ensures StockMoved(items, lines[..0], direction, s, s) && LevelsMoved(items, lines[..0], direction, shelf, l, l)
    ensures Covers(items, lines[..0], s) && !HasTracked(items, lines[..0])
  {
  }

  /** A line without a tracked item: nothing moves. */
  lemma UntrackedStep(items: seq<Item>, lines: seq<Line>, k: nat, direction: int, shelf: Option<nat>,
                      s0: seq<real>, s: seq<real>, l0: map<(nat, nat), real>, l: map<(nat, nat), real>)
    requires k < |lines| && !LineTracked(items, lines[k]) && |s0| == |items|
    requires StockMoved(items, lines[..k], direction, s0, s) && LevelsMoved(items, lines[..k], direction, shelf, l0, l)
    ensures StockMoved(items, lines[..k + 1], direction, s0, s)
            && LevelsMoved(items, lines[..k + 1], direction, shelf, l0, l)
    ensures HasTracked(items, lines[..k + 1]) == HasTracked(items, lines[..k])
    ensures Covers(items, lines[..k + 1], s0) == Covers(items, lines[..k], s0)
  {
    var before, ls := lines[..k], lines[..k + 1];
    forall i: nat ensures Demand(items, ls, i) == Demand(items, before, i) { DemandStep(items, lines, k, i); }
    forall i: nat, w: nat
      ensures LevelAt(l, i, w) == LevelAt(l0, i, w) + ShelfChange(items, ls, direction, shelf, i, w)
    {
      assert LevelAt(l, i, w) == LevelAt(l0, i, w) + ShelfChange(items, before, direction, shelf, i, w);
    }
    if HasTracked(items, lines[..k + 1]) {
      var j :| 0 <= j < k + 1 && LineTracked(items, lines[..k + 1][j]);
      assert lines[..k][j] == lines[j];
    }
    if HasTracked(items, lines[..k]) {
      var j :| 0 <= j < k && LineTracked(items, lines[..k][j]);
      assert lines[..k + 1][j] == lines[j];
    }
  }

  /** A tracked line: its item's stock and its level take the line's quantity, nothing else moves. */
  lemma TrackedStep(items: seq<Item>, lines: seq<Line>, k: nat, direction: int, shelf: Option<nat>,
                    s0: seq<real>, s: seq<real>, s': seq<real>,
                    l0: map<(nat, nat), real>, l: map<(nat, nat), real>, l': map<(nat, nat), real>)
    requires k < |lines| && LineTracked(items, lines[k])
    requires StockMoved(items, lines[..k], direction, s0, s) && |s| == |items|
    requires LevelsMoved(items, lines[..k], direction, shelf, l0, l)
    requires var i, q := lines[k].item.value, LineQuantity(items[lines[k].item.value], lines[k]);
             && s' == s[i := s[i] + Directed(direction, q)]
             && LevelsShifted(l, l', direction, q, shelf, i)
    ensures StockMoved(items, lines[..k + 1], direction, s0, s')
    ensures LevelsMoved(items, lines[..k + 1], direction, shelf, l0, l')
    ensures HasTracked(items, lines[..k + 1])
  {
    var i, q := lines[k].item.value, LineQuantity(items[lines[k].item.value], lines[k]);
    assert lines[..k + 1][k] == lines[k];
    forall j: nat
      ensures Demand(items, lines[..k + 1], j) == Demand(items, lines[..k], j) + (if j == i then q else 0.0)
    {
      DemandStep(items, lines, k, j);
    }
    var ls := lines[..k + 1];
    forall j: nat, w: nat
      ensures LevelAt(l', j, w) == LevelAt(l0, j, w) + ShelfChange(items, ls, direction, shelf, j, w)
    {
      assert LevelAt(l', j, w) == LevelAt(l, j, w) + LineLevel(direction, q, shelf, i, j, w);
      assert LevelAt(l, j, w) == LevelAt(l0, j, w) + ShelfChange(items, lines[..k], direction, shelf, j, w);
      ShelfStep(items, lines, k, direction, shelf, j, w);
    }
    assert LevelsMoved(items, ls, direction, shelf, l0, l');
  }

  lemma ShelfStep(items: seq<Item>, lines: seq<Line>, k: nat, direction: int, shelf: Option<nat>, j: nat, w: nat)
    requires k < |lines| && LineTracked(items, lines[k])
    ensures var i, q := lines[k].item.value, LineQuantity(items[lines[k].item.value], lines[k]);
            ShelfChange(items, lines[..k + 1], direction, shelf, j, w)
            == ShelfChange(items, lines[..k], direction, shelf, j, w) + LineLevel(direction, q, shelf, i, j, w)
  {
    DemandStep(items, lines, k, j);
  }

  /** The guard at one line of a stock-reducing document decides whether the lines so far are covered. */
  lemma GuardStep(items: seq<Item>, lines: seq<Line>, k: nat, s0: seq<real>, s: seq<real>)
    requires forall j :: 0 <= j < |items| ==> ItemOk(items[j])
    requires forall j :: 0 <= j < |lines| ==> LineOk(items, lines[j])
    requires k < |lines| && LineTracked(items, lines[k])
    requires |s0| == |items| && StockMoved(items, lines[..k], -1, s0, s)
    requires Covers(items, lines[..k], s0)
    ensures var i := lines[k].item.value;
            (s[i] - LineQuantity(items[i], lines[k]) >= 0.0) == Covers(items, lines[..k + 1], s0)
    ensures LineQuantity(items[lines[k].item.value], lines[k]) > 0.0
  {
    var i := lines[k].item.value;
    LineDemandPositive(items, lines[k], i);
    DemandGrows(items, lines, k, i);
    forall j: nat
      ensures Demand(items, lines[..k + 1], j) == Demand(items, lines[..k], j) + LineDemand(items, j)(lines[k])
    {
      DemandStep(items, lines, k, j);
    }
    if s[i] - LineQuantity(items[i], lines[k]) >= 0.0 {
      forall j: nat | j < |items| && Demand(items, lines[..k + 1], j) > 0.0
        ensures Demand(items, lines[..k + 1], j) <= s0[j]
      {
      }
    }
  }

  /** Once some lines ask for too much, the whole document does. */
  lemma UncoveredStays(items: seq<Item>, lines: seq<Line>, k: nat, s0: seq<real>)
    requires forall j :: 0 <= j < |items| ==> ItemOk(items[j])
    requires forall j :: 0 <= j < |lines| ==> LineOk(items, lines[j])
    requires k <= |lines| && |s0| == |items|
    requires !Covers(items, lines[..k], s0)
    ensures !Covers(items, lines, s0)
  {
    var i: nat :| i < |items| && Demand(items, lines[..k], i) > 0.0 && Demand(items, lines[..k], i) > s0[i];
    DemandGrows(items, lines, k, i);
  }

  // ----- Allocations applied one by one -----

  lemma SameAllocCheck(d: Docs, d': Docs, id: nat, a: AllocIn)
    requires |d.txns| == |d'.txns| && id < |d.txns|
    requires forall x :: 0 <= x < |d.txns| ==> SameFigures(d.txns[x], d'.txns[x])
    ensures AllocInOk(d, d.txns[id].kind, d.txns[id].party, a) == AllocInOk(d', d'.txns[id].kind, d'.txns[id].party, a)
  {
  }

  /** One more allocation: its bill's paid amount grows by it, no other bill's does. */
  lemma AllocateOne(d: Docs, id: nat, als: seq<AllocIn>, k: nat, before: Docs, after: Docs)
    requires k < |als|
    requires before == Allocated(d, id, als[..k])
    requires als[k].against < |d.txns|
    requires var x := als[k].against;
             after == before.(
               allocs := before.allocs + [Alloc(id, x, als[k].amount, als[k].discount, 1)],
               txns := before.txns[x := before.txns[x].(status := BillStatus(before.txns[x].total,
                                                                             PaidDue(before, x) + als[k].amount
                                                                             + als[k].discount))])
    ensures forall x: nat :: x < |d.txns| ==>
              PaidDue(after, x) == PaidDue(before, x)
              + (if x == als[k].against then als[k].amount + als[k].discount else 0.0)
    ensures after == Allocated(d, id, als[..k + 1])
  {
    var row := Alloc(id, als[k].against, als[k].amount, als[k].discount, 1);
    forall x: nat | x < |d.txns|
      ensures PaidDue(after, x)
              == PaidDue(before, x) + (if x == als[k].against then als[k].amount + als[k].discount else 0.0)
    {
      SumAppend(before.allocs, row, AllocPaid(x));
    }
    var done, next := als[..k], als[..k + 1];
    assert AllocRows(id, next) == AllocRows(id, done) + [row];
    assert after.allocs == d.allocs + AllocRows(id, next);
    assert next[k] == als[k];
    forall x: nat ensures TargetsIn(next)(x) == (TargetsIn(done)(x) || x == als[k].against) {
      if TargetsIn(next)(x) && x != als[k].against {
        var j :| 0 <= j < |next| && next[j].against == x;
        assert done[j].against == x;
      }
      if TargetsIn(done)(x) {
        var j :| 0 <= j < |done| && done[j].against == x;
        assert next[j].against == x;
      }
    }
    var d0, d1 := d.(allocs := before.allocs), d.(allocs := after.allocs);
    forall x: nat | x < |d.txns| ensures PaidDue(d0, x) == PaidDue(before, x) && PaidDue(d1, x) == PaidDue(after, x) { }
    RestateOne(d0, d1, TargetsIn(done), TargetsIn(next), als[k].against);
  }

  // ----- Stored allocations taken back or given again, row by row -----

  lemma ReallocateNone(d: Docs, id: nat, step: int)
    ensures PartlyReallocated(d, id, step, 0) == d
  {
    assert PartlyShifted(d.allocs, id, step, 0) == d.allocs;
    assert PartlyReallocated(d, id, step, 0).txns == d.txns;
  }

  lemma ReallocateAll(d: Docs, id: nat, step: int)
    ensures PartlyReallocated(d, id, step, |d.allocs|) == Reallocated(d, id, step)
  {
    assert d.allocs[..|d.allocs|] == d.allocs;
    assert PartlyShifted(d.allocs, id, step, |d.allocs|) == Shifted(d.allocs, id, step);
  }

  lemma TargetsStep(als: seq<Alloc>, id: nat, k: nat, x: nat)
    requires k < |als|
    ensures TargetsOf(als[..k + 1], id)(x) == (TargetsOf(als[..k], id)(x) || (als[k].pay == id && als[k].against == x))
  {
    var done, next := als[..k], als[..k + 1];
    assert next[k] == als[k];
    if TargetsOf(next, id)(x) && !(als[k].pay == id && als[k].against == x) {
      var j :| 0 <= j < |next| && next[j].pay == id && next[j].against == x;
      assert done[j].pay == id && done[j].against == x;
    }
    if TargetsOf(done, id)(x) {
      var j :| 0 <= j < |done| && done[j].pay == id && done[j].against == x;
      assert next[j].pay == id && next[j].against == x;
    }
  }

  lemma ReallocateSkip(d: Docs, id: nat, step: int, k: nat)
    requires k < |d.allocs| && d.allocs[k].pay != id
    ensures PartlyReallocated(d, id, step, k + 1) == PartlyReallocated(d, id, step, k)
  {
    assert PartlyShifted(d.allocs, id, step, k + 1) == PartlyShifted(d.allocs, id, step, k);
    forall x: nat
      ensures TargetsOf(d.allocs[..k + 1], id)(x) == TargetsOf(d.allocs[..k], id)(x)
    {
      TargetsStep(d.allocs, id, k, x);
    }
    assert PartlyReallocated(d, id, step, k + 1).txns == PartlyReallocated(d, id, step, k).txns;
  }

  /** What applying an allocation once more (or once less) adds to its bill. */
  function Given(a: Alloc, step: int): real { if step == 1 then a.amount + a.discount else -(a.amount + a.discount) }

  lemma RewriteAlloc(d: Docs, k: nat, step: int, x: nat)
    requires k < |d.allocs| && x < |d.txns|
    requires step == 1 || step == -1
    ensures PaidDue(d.(allocs := d.allocs[k := d.allocs[k].(net := d.allocs[k].net + step)]), x)
         == PaidDue(d, x) + (if x == d.allocs[k].against then Given(d.allocs[k], step) else 0.0)
  {
    var a := d.allocs[k];
    SumUpdate(d.allocs, k, a.(net := a.net + step), AllocPaid(x));
    WeighStep(a.net, a.amount + a.discount);
  }

  /** One more bill restated: the others keep the status they were given. */
  lemma RestateOne(d: Docs, d': Docs, touched: nat -> bool, touched': nat -> bool, x: nat)
    requires d' == d.(allocs := d'.allocs) && x < |d.txns|
    requires forall y: nat :: y < |d.txns| && y != x ==> PaidDue(d', y) == PaidDue(d, y)
    requires forall y: nat :: touched'(y) == (touched(y) || y == x)
    ensures Restated(d', touched')
            == Restated(d, touched)[x := d.txns[x].(status := BillStatus(d.txns[x].total, PaidDue(d', x)))]
  {
  }

  lemma PaidDueLooksAt(d: Docs, d': Docs, x: nat)
    requires x < |d.txns| && x < |d'.txns| && d.txns[x].base == d'.txns[x].base && d.allocs == d'.allocs
    ensures PaidDue(d, x) == PaidDue(d', x)
  {
  }

  lemma ReallocateOne(d: Docs, id: nat, step: int, k: nat, before: Docs, after: Docs)
    requires k < |d.allocs| && d.allocs[k].pay == id && d.allocs[k].against < |d.txns|
    requires step == 1 || step == -1
    requires before == PartlyReallocated(d, id, step, k)
    requires var x := d.allocs[k].against;
             after == before.(
               allocs := before.allocs[k := d.allocs[k].(net := d.allocs[k].net + step)],
               txns := before.txns[x := before.txns[x].(status := BillStatus(before.txns[x].total,
                                                                             PaidDue(before, x) + Given(d.allocs[k],
                                                                                                        step)))])
    ensures forall x: nat :: x < |d.txns| ==>
              PaidDue(after, x) == PaidDue(before, x)
              + (if x == d.allocs[k].against then Given(d.allocs[k], step) else 0.0)
    ensures after == PartlyReallocated(d, id, step, k + 1)
  {
    var bill := d.allocs[k].against;
    assert before.allocs[k] == d.allocs[k];
    var d0, d1 := d.(allocs := before.allocs), d.(allocs := after.allocs);
    forall x: nat | x < |d.txns|
      ensures PaidDue(after, x) == PaidDue(before, x) + (if x == bill then Given(d.allocs[k], step) else 0.0)
      ensures PaidDue(d0, x) == PaidDue(before, x) && PaidDue(d1, x) == PaidDue(after, x)
    {
      RewriteAlloc(before, k, step, x);
      PaidDueLooksAt(before.(allocs := after.allocs), after, x);
    }
    assert after.allocs == PartlyShifted(d.allocs, id, step, k + 1);
    var done, next := TargetsOf(d.allocs[..k], id), TargetsOf(d.allocs[..k + 1], id);
    forall x: nat ensures next(x) == (done(x) || x == bill) { TargetsStep(d.allocs, id, k, x); }
    RestateOne(d0, d1, done, next, bill);
  }
}
