/**
  Posting, reversing and reposting a document keep the tables well formed and move every derived
  total by that one document.

  The first half is about the rows: which payment rows a posting adds, that posting, reversing,
  reposting, inserting a document and writing flags or a status keep all references and counts.  The
  second half is about the columns: if stock, levels, parties, accounts and bills agreed with the rows
  before, and each column moved by what the document calls for, they agree afterwards.  Then the same
  for posting and reversing in the stages the engine does them in, for charging a held bill, and for
  master data and stock outside documents.
*/
module PostingLaws {
  import opened Wrappers
  import opened Sums
  import opened Books
  import opened Steps
  import opened Laws

  /** In the table, not held, and none of its effects there yet. */
  ghost predicate Fresh(d: Docs, id: nat) {
    && WellFormed(d)
    && id < |d.txns| && !d.txns[id].status.Held?
    && d.txns[id].net == 0 && !d.txns[id].posted && d.txns[id].settled == 0.0
    && (forall k :: 0 <= k < |d.pays| ==> d.pays[k].txn != id)
    && (forall k :: 0 <= k < |d.allocs| ==> d.allocs[k].pay != id)
  }

  // ----- Payment rows -----

  /** A row freshly written for a document of this kind and branch. */
  ghost predicate NewRow(id: nat, kind: Kind, branch: Option<nat>, r: Pay) {
    && r.txn == id && r.inbound == Inbound(kind) && r.amount > 0.0 && !r.tender.Debt?
    && (!r.tender.Cheque? && r.account.None? ==> branch.None?)
    && (r.tender.Cheque? ==> r.slip.OpenSlip?)
  }

  lemma {:induction false} TenderRows(id: nat, kind: Kind, branch: Option<nat>, ps: seq<PayIn>,
                                      accounts: seq<Account>, pays: seq<Pay>)
    ensures var (accounts', pays') := TenderAll(id, kind, branch, ps, accounts, pays);
            && accounts <= accounts' && pays <= pays'
            && (forall k :: |pays| <= k < |pays'| ==> NewRow(id, kind, branch, pays'[k]))
            && (forall x: nat :: Sum(pays', RowAmount(x))
                  == Sum(pays, RowAmount(x)) + (if x == id then Sum(ps, RowPart()) else 0.0))
  {
    if |ps| > 0 {
      var n := |ps| - 1;
      TenderRows(id, kind, branch, ps[..n], accounts, pays);
      var (accounts1, pays1) := TenderAll(id, kind, branch, ps[..n], accounts, pays);
      var (accounts2, pays2) := TenderOne(id, kind, branch, ps[n], accounts1, pays1);
      forall x: nat
        ensures Sum(pays2, RowAmount(x)) == Sum(pays1, RowAmount(x)) + (if x == id then RowPart()(ps[n]) else 0.0)
      {
        if |pays2| > |pays1| { SumAppend(pays1, pays2[|pays1|], RowAmount(x)); }
      }
    }
  }

  // ----- Posting -----

  function PostedTxn(d: Docs, id: nat, ps: seq<PayIn>): Txn
    requires id < |d.txns|
  {
    d.txns[id].(net := d.txns[id].net + 1, posted := true, settled := Sum(ps, RowPart()))
  }

  lemma PostIsNetStep(d: Docs, id: nat, ps: seq<PayIn>, als: seq<AllocIn>)
    requires Fresh(d, id)
    ensures NetStep(d, Post(d, id, ps, als), id, PostedTxn(d, id, ps), 1)
  {
  }

  lemma PostTxnsOk(d: Docs, id: nat, ps: seq<PayIn>, als: seq<AllocIn>)
    requires Fresh(d, id)
    ensures var d' := Post(d, id, ps, als); forall x :: 0 <= x < |d'.txns| ==> TxnOk(d', x)
  {
    var d' := Post(d, id, ps, als);
    TenderRows(id, d.txns[id].kind, d.txns[id].branch, ps, d.accounts, d.pays);
    SumZero(d.pays, RowAmount(id));
    forall x | 0 <= x < |d'.txns| ensures TxnOk(d', x) {
      assert TxnOk(d, x);
    }
  }

  /** Every document whose stock has moved has a warehouse, if the business has any. */
  lemma NetStepHomesOk(d: Docs, d': Docs, id: nat, t': Txn, step: int)
    requires NetStep(d, d', id, t', step)
    ensures forall x :: 0 <= x < |d'.txns| ==> HomeOk(d', d'.txns[x])
  {
    var t := d.txns[id];
    if Shelves(d.items, t.kind, t.branch, t.lines) {
      ResolveKeepsHomes(d, t.branch.value);
      HomeStable(d.warehouses, t.branch.value, t.branch.value);
    }
    forall x | 0 <= x < |d'.txns| ensures HomeOk(d', d'.txns[x]) {
      assert HomeOk(d, d.txns[x]);
      assert SameFigures(d.txns[id := t'][x], d'.txns[x]);
      assert HomeOk(d.(warehouses := d'.warehouses), d.txns[x]);
    }
  }

  lemma MoreWarehouses(d: Docs, id: nat)
    requires id < |d.txns|
    ensures |WarehousesAfter(d, d.txns[id])| >= |d.warehouses|
  {
    if d.txns[id].branch.Some? { HomeStable(d.warehouses, d.txns[id].branch.value, 0); }
  }

  lemma PostKeepsWellFormed(d: Docs, id: nat, ps: seq<PayIn>, als: seq<AllocIn>)
    requires Fresh(d, id) && PostOk(d, id, ps, als)
    requires MoneyRefs(Post(d, id, ps, als))
    ensures WellFormed(Post(d, id, ps, als))
  {
    var d' := Post(d, id, ps, als);
    PostTxnsOk(d, id, ps, als);
    PostIsNetStep(d, id, ps, als);
    NetStepHomesOk(d, d', id, PostedTxn(d, id, ps), 1);
    MoreWarehouses(d, id);
    TenderRows(id, d.txns[id].kind, d.txns[id].branch, ps, d.accounts, d.pays);
    forall k | 0 <= k < |d'.pays| ensures PayOk(d', d'.pays[k]) {
      assert PayRefs(d'.accounts, d'.pays[k]);
      if k < |d.pays| {
        assert PayOk(d, d.pays[k]);
      } else {
        assert NewRow(id, d.txns[id].kind, d.txns[id].branch, d'.pays[k]);
      }
    }
    forall k | 0 <= k < |d'.allocs| ensures AllocOk(d', d'.allocs[k]) {
      if k < |d.allocs| {
        assert AllocOk(d, d.allocs[k]);
      } else {
        assert AllocInOk(d, d.txns[id].kind, d.txns[id].party, als[k - |d.allocs|]);
        assert TargetsIn(als)(d'.allocs[k].against);
      }
    }
    forall k | 0 <= k < |d'.stockOps| ensures OpOk(d', d'.stockOps[k]) { assert OpOk(d, d.stockOps[k]); }
  }

  // ----- Reversing and reposting -----

  /** The document's row with one net posting more or less. */
  function Renetted(d: Docs, id: nat, step: int): Txn
    requires id < |d.txns|
  {
    d.txns[id].(net := d.txns[id].net + step)
  }

  /** What Unpost (step -1) and Repost (step 1) have in common. */
  ghost predicate Turned(d: Docs, d': Docs, id: nat, step: int) {
    && id < |d.txns| && (step == 1 || step == -1)
    && d' == d.(warehouses := d'.warehouses, pays := d'.pays, txns := d'.txns, allocs := d'.allocs)
    && d'.warehouses == WarehousesAfter(d, d.txns[id])
    && |d'.pays| == |d.pays|
    && (forall k :: 0 <= k < |d.pays| ==> d'.pays[k] == d.pays[k].(net := d'.pays[k].net, slip := d'.pays[k].slip))
    && d'.allocs == Shifted(d.allocs, id, step)
    && |d'.txns| == |d.txns|
    && (forall k :: 0 <= k < |d.txns| ==>
          SameFigures(d.txns[id := Renetted(d, id, step)][k], d'.txns[k])
          && (d'.txns[k].status.Held? ==> d.txns[k].status.Held?))
  }

  lemma UnpostTurns(d: Docs, id: nat)
    requires id < |d.txns|
    ensures Turned(d, Unpost(d, id), id, -1)
  {
  }

  lemma RepostTurns(d: Docs, id: nat)
    requires id < |d.txns|
    ensures Turned(d, Repost(d, id), id, 1)
  {
  }

  lemma TurnIsNetStep(d: Docs, d': Docs, id: nat, step: int)
    requires WellFormed(d) && Turned(d, d', id, step)
    ensures NetStep(d, d', id, Renetted(d, id, step), step)
  {
  }

  lemma TurnKeepsWellFormed(d: Docs, d': Docs, id: nat, step: int)
    requires WellFormed(d) && Turned(d, d', id, step) && !d.txns[id].status.Held?
    requires MoneyRefs(d')
    ensures WellFormed(d')
  {
    TurnIsNetStep(d, d', id, step);
    NetStepHomesOk(d, d', id, Renetted(d, id, step), step);
    MoreWarehouses(d, id);
    forall x | 0 <= x < |d'.txns| ensures TxnOk(d', x) {
      assert TxnOk(d, x);
      SumPointwise(d.pays, d'.pays, RowAmount(x), RowAmount(x));
    }
    forall k | 0 <= k < |d'.pays| ensures PayOk(d', d'.pays[k]) {
      assert PayRefs(d'.accounts, d'.pays[k]);
      assert PayOk(d, d.pays[k]);
    }
    forall k | 0 <= k < |d'.allocs| ensures AllocOk(d', d'.allocs[k]) { assert AllocOk(d, d.allocs[k]); }
    forall k | 0 <= k < |d'.stockOps| ensures OpOk(d', d'.stockOps[k]) { assert OpOk(d, d.stockOps[k]); }
  }

  // ----- Flags and statuses -----

  /** Changing a deletion mark or a status keeps the tables well formed; only a document that never
      moved anything may be put on hold. */
  lemma FlagsKeepWellFormed(d: Docs, d': Docs)
    requires WellFormed(d) && d' == d.(txns := d'.txns)
    requires |d.txns| == |d'.txns|
    requires forall k :: 0 <= k < |d.txns|
               ==> SameFigures(d.txns[k], d'.txns[k])
                   && (d'.txns[k].status.Held? ==> d.txns[k].status.Held? || NeverMoved(d, k))
    ensures WellFormed(d')
  {
    forall x | 0 <= x < |d'.txns|
      ensures TxnOk(d', x) && HomeOk(d', d'.txns[x])
    {
      assert TxnOk(d, x) && HomeOk(d, d.txns[x]);
    }
    forall k | 0 <= k < |d'.pays| ensures PayOk(d', d'.pays[k]) { assert PayOk(d, d.pays[k]); }
    forall k | 0 <= k < |d'.allocs| ensures AllocOk(d', d'.allocs[k]) { assert AllocOk(d, d.allocs[k]); }
    forall k | 0 <= k < |d'.stockOps| ensures OpOk(d', d'.stockOps[k]) { assert OpOk(d, d.stockOps[k]); }
    forall k | 0 <= k < |d'.transfers| ensures TransferOk(d', d'.transfers[k]) { assert TransferOk(d, d.transfers[k]); }
  }

  // ----- Inserting -----

  lemma InsertKeepsWellFormed(d: Docs, f: Draft)
    requires WellFormed(d) && DraftOk(d, f)
    ensures WellFormed(Inserted(d, f))
    ensures !f.OnHold() ==> Fresh(Inserted(d, f), |d.txns|)
  {
    var d' := Inserted(d, f);
    forall k | 0 <= k < |d'.pays|
      ensures PayOk(d', d'.pays[k]) && d'.pays[k].txn != |d.txns|
    {
      assert PayOk(d, d.pays[k]);
    }
    SumZero(d.pays, RowAmount(|d.txns|));
    forall x | 0 <= x < |d'.txns| ensures TxnOk(d', x) && HomeOk(d', d'.txns[x]) {
      if x < |d.txns| { assert TxnOk(d, x) && HomeOk(d, d.txns[x]); }
    }
    forall k | 0 <= k < |d'.allocs|
      ensures AllocOk(d', d'.allocs[k]) && d'.allocs[k].pay != |d.txns|
    {
      assert AllocOk(d, d.allocs[k]);
    }
    forall k | 0 <= k < |d'.stockOps| ensures OpOk(d', d'.stockOps[k]) { assert OpOk(d, d.stockOps[k]); }
    forall k | 0 <= k < |d'.transfers| ensures TransferOk(d', d'.transfers[k]) { assert TransferOk(d, d.transfers[k]); }
  }

  /** A new document starts with exactly what it was paid when written. */
  lemma InsertBills(d: Docs, t: Txn)
    requires WellFormed(d)
    ensures var d' := d.(txns := d.txns + [t]);
            && (forall x: nat :: x < |d.txns| ==> PaidDue(d', x) == PaidDue(d, x))
            && PaidDue(d', |d.txns|) == t.base
  {
    forall k | 0 <= k < |d.allocs| ensures AllocPaid(|d.txns|)(d.allocs[k]) == 0.0 { assert AllocOk(d, d.allocs[k]); }
    SumZero(d.allocs, AllocPaid(|d.txns|));
  }

  // ----- The columns follow the rows -----

  function StepDirection(kind: Kind, step: int): int { if step == 1 then StockEffect(kind) else -StockEffect(kind) }

  /** Which warehouse the lines of a document of this branch move. */
  function Shelf(ws: seq<Option<nat>>, branch: Option<nat>): Option<nat> {
    if branch.Some? then Home(ResolveWarehouse(ws, branch.value), branch.value) else None
  }

  lemma ShelfIsHome(d: Docs, t: Txn, step: int, i: nat, w: nat)
    requires step == 1 || step == -1
    ensures ShelfChange(d.items, t.lines, StepDirection(t.kind, step), Shelf(d.warehouses, t.branch), i, w)
            == Weigh(step, LevelShift(d, t, i, w))
  {
    if !HasTracked(d.items, t.lines) { NoTrackedNoDemand(d.items, t.lines, i); }
  }

  lemma StockFollows(d: Docs, d': Docs, id: nat, t': Txn, step: int, s: seq<real>, s': seq<real>,
                     l: map<(nat, nat), real>, l': map<(nat, nat), real>)
    requires NetStep(d, d', id, t', step)
    requires StockAgrees(d, s, l)
    requires StockMoved(d.items, t'.lines, StepDirection(t'.kind, step), s, s')
    requires LevelsMoved(d.items, t'.lines, StepDirection(t'.kind, step), Shelf(d.warehouses, t'.branch), l, l')
    ensures StockAgrees(d', s', l')
  {
    forall i: nat | i < |s'| ensures s'[i] == StockDue(d', i) {
      NetChangeStock(d, d', id, t', step, i);
    }
    var direction, shelf := StepDirection(t'.kind, step), Shelf(d.warehouses, t'.branch);
    forall i: nat, w: nat ensures LevelAt(l', i, w) == LevelDue(d', i, w) {
      assert LevelAt(l', i, w) == LevelAt(l, i, w) + ShelfChange(d.items, t'.lines, direction, shelf, i, w);
      NetChangeLevel(d, d', id, t', step, i, w);
      ShelfIsHome(d, t', step, i, w);
    }
  }

  /** What a whole posting, reversal or reposting does to the party column. */
  ghost predicate PartiesMoved(t: Txn, delta: real, step: int, before: seq<real>, after: seq<real>) {
    |after| == |before| && forall p: nat :: p < |after| ==> after[p] == before[p] + Weigh(step, PartyShift(t, p, delta))
  }

  lemma PartiesFollow(d: Docs, d': Docs, id: nat, t': Txn, delta: real, step: int, before: seq<real>, after: seq<real>)
    requires NetStep(d, d', id, t', step) && d'.parties == d.parties
    requires PartiesAgree(d, before) && PartiesMoved(t', delta, step, before, after)
    requires forall p: nat :: p < |d.parties|
               ==> TxnParty(p)(t') == TxnParty(p)(d.txns[id]) + Weigh(step, PartyShift(t', p, delta))
    ensures PartiesAgree(d', after)
  {
    forall p: nat | p < |after| ensures after[p] == PartyDue(d', p) {
      NetChangeParty(d, d', id, t', p, Weigh(step, PartyShift(t', p, delta)));
    }
  }

  /** First posting adds what the balance at posting time calls for. */
  lemma PostedParty(d: Docs, id: nat, ps: seq<PayIn>, p: nat)
    requires Fresh(d, id)
    ensures TxnParty(p)(PostedTxn(d, id, ps))
            == TxnParty(p)(d.txns[id]) + Weigh(1, PartyShift(d.txns[id], p, Delta(d.txns[id], d.txns[id].base)))
  {
  }

  /** Reversing and reposting go by the stored payment rows. */
  lemma RenettedParty(d: Docs, id: nat, step: int, p: nat)
    requires id < |d.txns| && (step == 1 || step == -1)
    ensures TxnParty(p)(Renetted(d, id, step))
            == TxnParty(p)(d.txns[id]) + Weigh(step, PartyShift(d.txns[id], p, Delta(d.txns[id], d.txns[id].settled)))
  {
    var t := d.txns[id];
    WeighStep(t.net, Delta(t, t.settled));
    WeighStep(t.net, t.total);
    WeighStep(t.net, -t.total);
  }

  /** Bills depend only on the stored paid amounts and the allocation rows. */
  lemma BillsFollow(d: Docs, d': Docs, paid: seq<real>, owed: seq<real>)
    requires BillsAgree(d, paid, owed)
    requires |d.txns| == |d'.txns| && d.allocs == d'.allocs
    requires forall x :: 0 <= x < |d.txns| ==> d.txns[x].base == d'.txns[x].base && d.txns[x].total == d'.txns[x].total
    ensures BillsAgree(d', paid, owed)
  {
    forall x: nat | x < |paid| ensures paid[x] == PaidDue(d', x) { PaidDueLooksAt(d, d', x); }
  }

  /** Money depends only on accounts, payment rows, transfers and loans. */
  lemma MoneyFollows(d: Docs, d': Docs, balances: seq<real>)
    requires MoneyRefs(d) && MoneyAgrees(d, balances)
    requires d.accounts == d'.accounts && d.pays == d'.pays && d.transfers == d'.transfers && d.loans == d'.loans
    ensures MoneyRefs(d') && MoneyAgrees(d', balances)
  {
    forall a: nat | a < |balances|
      ensures balances[a] == AccountDue(d', a)
    {
      assert AccountDue(d, a) == AccountDue(d', a);
    }
    forall k | 0 <= k < |d'.transfers| ensures TransferOk(d', d'.transfers[k]) { assert TransferOk(d, d.transfers[k]); }
  }

  lemma AllocChecksFollow(d: Docs, d': Docs, kind: Kind, party: Option<nat>, als: seq<AllocIn>)
    requires |d.txns| == |d'.txns|
    requires forall x :: 0 <= x < |d.txns| ==> d.txns[x].kind == d'.txns[x].kind && d.txns[x].party == d'.txns[x].party
    ensures AllocsInOk(d, kind, party, als) == AllocsInOk(d', kind, party, als)
  {
    forall k | 0 <= k < |als| ensures AllocInOk(d, kind, party, als[k]) == AllocInOk(d', kind, party, als[k]) { }
  }

  lemma AllocateNone(d: Docs, id: nat)
    ensures Allocated(d, id, []) == d
  {
    assert Allocated(d, id, []).txns == d.txns;
    assert d.allocs + AllocRows(id, []) == d.allocs;
  }

  lemma WellFormedRefs(d: Docs)
    requires WellFormed(d)
    ensures MoneyRefs(d)
  {
    forall k | 0 <= k < |d.pays| ensures PayRefs(d.accounts, d.pays[k]) { assert PayOk(d, d.pays[k]); }
  }

  /** The oversell guard on running columns is the guard on recomputed stock. */
  lemma CoversFits(d: Docs, stock: seq<real>, levels: map<(nat, nat), real>, kind: Kind, lines: seq<Line>)
    requires StockAgrees(d, stock, levels)
    ensures StockFits(d, kind, lines) <==> (StockEffect(kind) >= 0 || Covers(d.items, lines, stock))
  {
  }

  /** After posting, every column again agrees with the rows. */
  lemma PostColumns(d: Docs, id: nat, ps: seq<PayIn>, als: seq<AllocIn>, d': Docs,
                    s: seq<real>, s': seq<real>, l: map<(nat, nat), real>, l': map<(nat, nat), real>, dues: seq<real>,
                    dues': seq<real>)
    requires Fresh(d, id) && PostOk(d, id, ps, als) && d' == Post(d, id, ps, als) && MoneyRefs(d')
    requires StockAgrees(d, s, l) && PartiesAgree(d, dues)
    requires StockMoved(d.items, d.txns[id].lines, StockEffect(d.txns[id].kind), s, s')
    requires LevelsMoved(d.items, d.txns[id].lines, StockEffect(d.txns[id].kind),
                         Shelf(d.warehouses, d.txns[id].branch), l, l')
    requires PartiesMoved(d.txns[id], Delta(d.txns[id], d.txns[id].base), 1, dues, dues')
    ensures WellFormed(d') && StockAgrees(d', s', l') && PartiesAgree(d', dues')
  {
    var t, t' := d.txns[id], PostedTxn(d, id, ps);
    PostIsNetStep(d, id, ps, als);
    StockFollows(d, d', id, t', 1, s, s', l, l');
    forall p: nat | p < |d.parties|
      ensures TxnParty(p)(t') == TxnParty(p)(t) + Weigh(1, PartyShift(t', p, Delta(t, t.base)))
    {
      PostedParty(d, id, ps, p);
    }
    assert PartiesMoved(t', Delta(t, t.base), 1, dues, dues') by {
      forall p: nat | p < |dues'| ensures dues'[p] == dues[p] + Weigh(1, PartyShift(t', p, Delta(t, t.base))) { }
    }
    PartiesFollow(d, d', id, t', Delta(t, t.base), 1, dues, dues');
    PostKeepsWellFormed(d, id, ps, als);
  }

  /** The same after reversing (step -1) or reposting (step 1). */
  lemma TurnColumns(d: Docs, id: nat, step: int, d': Docs,
                    s: seq<real>, s': seq<real>, l: map<(nat, nat), real>, l': map<(nat, nat), real>, dues: seq<real>,
                    dues': seq<real>)
    requires WellFormed(d) && Turned(d, d', id, step) && !d.txns[id].status.Held? && MoneyRefs(d')
    requires StockAgrees(d, s, l) && PartiesAgree(d, dues)
    requires StockMoved(d.items, d.txns[id].lines, StepDirection(d.txns[id].kind, step), s, s')
    requires LevelsMoved(d.items, d.txns[id].lines, StepDirection(d.txns[id].kind, step),
                         Shelf(d.warehouses, d.txns[id].branch), l, l')
    requires PartiesMoved(d.txns[id], Delta(d.txns[id], d.txns[id].settled), step, dues, dues')
    ensures WellFormed(d') && StockAgrees(d', s', l') && PartiesAgree(d', dues')
  {
    var t, t' := d.txns[id], Renetted(d, id, step);
    TurnIsNetStep(d, d', id, step);
    StockFollows(d, d', id, t', step, s, s', l, l');
    forall p: nat | p < |d.parties|
      ensures TxnParty(p)(t') == TxnParty(p)(t) + Weigh(step, PartyShift(t', p, Delta(t, t.settled)))
    {
      RenettedParty(d, id, step, p);
    }
    assert PartiesMoved(t', Delta(t, t.settled), step, dues, dues') by {
      forall p: nat | p < |dues'| ensures dues'[p] == dues[p] + Weigh(step, PartyShift(t', p, Delta(t, t.settled))) { }
    }
    PartiesFollow(d, d', id, t', Delta(t, t.settled), step, dues, dues');
    TurnKeepsWellFormed(d, d', id, step);
  }

  // ----- Posting in stages -----

  /** Payments and allocations of document id put on the books. */
  ghost function Tendered(d: Docs, id: nat, ps: seq<PayIn>, als: seq<AllocIn>): Docs
    requires id < |d.txns|
  {
    var t := d.txns[id];
    var (accounts, pays) := TenderAll(id, t.kind, t.branch, ps, d.accounts, d.pays);
    Allocated(d.(accounts := accounts, pays := pays), id, if IsPayment(t.kind) then als else [])
  }

  ghost predicate TenderedOk(d: Docs, id: nat, ps: seq<PayIn>, als: seq<AllocIn>)
    requires id < |d.txns|
  {
    var t := d.txns[id];
    TendersOk(d.accounts, ps) && (IsPayment(t.kind) ==> AllocsInOk(d, t.kind, t.party, als))
  }

  /** The rows once the goods and party effects are in, before money. */
  function Marked(d: Docs, id: nat, ps: seq<PayIn>): Docs
    requires id < |d.txns|
  {
    d.(warehouses := WarehousesAfter(d, d.txns[id]), txns := d.txns[id := PostedTxn(d, id, ps)])
  }

  lemma PostSplits(d: Docs, id: nat, ps: seq<PayIn>, als: seq<AllocIn>)
    requires id < |d.txns|
    ensures Post(d, id, ps, als) == Tendered(Marked(d, id, ps), id, ps, als)
    ensures PostOk(d, id, ps, als)
            <==> StockFits(d, d.txns[id].kind, d.txns[id].lines) && TenderedOk(Marked(d, id, ps), id, ps, als)
  {
    AllocChecksFollow(d, Marked(d, id, ps), d.txns[id].kind, d.txns[id].party, als);
  }

  // ----- Reversing and reposting in stages -----

  /** The rows once a reversal or reposting has moved goods and parties, before money. */
  function MarkedAgain(d: Docs, id: nat, step: int): Docs
    requires id < |d.txns|
  {
    d.(warehouses := WarehousesAfter(d, d.txns[id]), txns := d.txns[id := Renetted(d, id, step)])
  }

  lemma MarkedPaysOk(d: Docs, id: nat, step: int)
    requires WellFormed(d) && id < |d.txns|
    ensures var m := MarkedAgain(d, id, step);
            && (forall k :: 0 <= k < |m.pays| ==> PayOk(m, m.pays[k]))
            && (forall k :: 0 <= k < |m.allocs| ==> m.allocs[k].against < |m.txns|)
  {
    var m := MarkedAgain(d, id, step);
    forall k | 0 <= k < |m.pays| ensures PayOk(m, m.pays[k]) { assert PayOk(d, d.pays[k]); }
    forall k | 0 <= k < |m.allocs| ensures m.allocs[k].against < |m.txns| { assert AllocOk(d, d.allocs[k]); }
  }

  lemma UnpostSplits(d: Docs, id: nat)
    requires WellFormed(d) && id < |d.txns|
    ensures var m := MarkedAgain(d, id, -1);
            && Undone(m, id) == Undone(d, id)
            && Unpost(d, id) == Reallocated(m.(pays := Undone(m, id)), id, -1)
            && (!IsPayment(d.txns[id].kind)
                ==> Reallocated(m.(pays := Undone(m, id)), id, -1) == m.(pays := Undone(m, id)))
  {
    var m := MarkedAgain(d, id, -1);
    assert Undone(m, id) == Undone(d, id);
    if !IsPayment(d.txns[id].kind) { NothingAllocated(d, m.(pays := Undone(m, id)), id, -1); }
  }

  lemma RepostSplits(d: Docs, id: nat)
    requires WellFormed(d) && id < |d.txns|
    ensures var m := MarkedAgain(d, id, 1);
            && Redone(m, id) == Redone(d, id)
            && Repost(d, id) == Reallocated(m.(pays := Redone(m, id)), id, 1)
            && (!IsPayment(d.txns[id].kind)
                ==> Reallocated(m.(pays := Redone(m, id)), id, 1) == m.(pays := Redone(m, id)))
  {
    var m := MarkedAgain(d, id, 1);
    assert Redone(m, id) == Redone(d, id);
    if !IsPayment(d.txns[id].kind) { NothingAllocated(d, m.(pays := Redone(m, id)), id, 1); }
  }

  /** Only payments have allocations, so for any other document there is none to shift. */
  lemma NothingAllocated(d: Docs, m: Docs, id: nat, step: int)
    requires WellFormed(d) && id < |d.txns| && !IsPayment(d.txns[id].kind)
    requires m.allocs == d.allocs
    ensures Reallocated(m, id, step) == m
  {
    forall k | 0 <= k < |d.allocs| ensures d.allocs[k].pay != id { assert AllocOk(d, d.allocs[k]); }
    assert Shifted(m.allocs, id, step) == m.allocs;
    assert Restated(m, TargetsOf(m.allocs, id)) == m.txns;
  }

  // ----- A held bill is charged -----

  lemma ChargeIsFresh(d: Docs, id: nat, edit: Option<Edit>, ps: seq<PayIn>)
    requires WellFormed(d) && id < |d.txns| && d.txns[id].status.Held?
    requires edit.Some? ==> forall k :: 0 <= k < |edit.value.lines| ==> LineOk(d.items, edit.value.lines[k])
    ensures Fresh(Charged(d, id, edit, ps), id)
  {
    var d' := Charged(d, id, edit, ps);
    assert TxnOk(d, id);
    forall k | 0 <= k < |d'.pays| ensures PayOk(d', d'.pays[k]) && d'.pays[k].txn != id { assert PayOk(d, d.pays[k]); }
    SumZero(d.pays, RowAmount(id));
    forall x | 0 <= x < |d'.txns|
      ensures TxnOk(d', x) && HomeOk(d', d'.txns[x])
    {
      assert TxnOk(d, x) && HomeOk(d, d.txns[x]);
    }
    forall k | 0 <= k < |d'.allocs|
      ensures AllocOk(d', d'.allocs[k]) && d'.allocs[k].pay != id
    {
      assert AllocOk(d, d.allocs[k]);
    }
    forall k | 0 <= k < |d'.stockOps| ensures OpOk(d', d'.stockOps[k]) { assert OpOk(d, d.stockOps[k]); }
    forall k | 0 <= k < |d'.transfers| ensures TransferOk(d', d'.transfers[k]) { assert TransferOk(d, d.transfers[k]); }
  }

  lemma ChargeMovesNothing(d: Docs, id: nat, edit: Option<Edit>, ps: seq<PayIn>, stock: seq<real>,
                           levels: map<(nat, nat), real>, dues: seq<real>)
    requires WellFormed(d) && id < |d.txns| && d.txns[id].status.Held?
    requires StockAgrees(d, stock, levels) && PartiesAgree(d, dues)
    ensures var d' := Charged(d, id, edit, ps); StockAgrees(d', stock, levels) && PartiesAgree(d', dues)
  {
    var d' := Charged(d, id, edit, ps);
    var t' := d'.txns[id];
    assert TxnOk(d, id);
    forall i: nat | i < |stock| ensures stock[i] == StockDue(d', i) { SumUpdate(d.txns, id, t', TxnStock(d.items, i)); }
    forall i: nat, w: nat
      ensures LevelAt(levels, i, w) == LevelDue(d', i, w)
    {
      SumUpdate(d.txns, id, t', TxnLevel(d.items, d.warehouses, i, w));
    }
    forall p: nat | p < |dues| ensures dues[p] == PartyDue(d', p) { SumUpdate(d.txns, id, t', TxnParty(p)); }
  }

  lemma ChargeBills(d: Docs, id: nat, edit: Option<Edit>, ps: seq<PayIn>, paid: seq<real>, owed: seq<real>)
    requires WellFormed(d) && id < |d.txns| && d.txns[id].status.Held?
    requires BillsAgree(d, paid, owed)
    ensures BillsAgree(Charged(d, id, edit, ps), paid[id := Sum(ps, NonDebt())],
                       owed[id := Edited(d.txns[id], edit).total - Sum(ps, NonDebt())])
  {
    forall k | 0 <= k < |d.allocs| ensures AllocPaid(id)(d.allocs[k]) == 0.0 { assert AllocOk(d, d.allocs[k]); }
    SumZero(d.allocs, AllocPaid(id));
    var d' := Charged(d, id, edit, ps);
    forall x: nat | x < |paid| && x != id ensures PaidDue(d', x) == PaidDue(d, x) { PaidDueLooksAt(d, d', x); }
  }

  lemma InsertMoney(d: Docs, f: Draft, balances: seq<real>)
    requires WellFormed(d) && MoneyAgrees(d, balances)
    ensures MoneyAgrees(Inserted(d, f), balances)
  {
    WellFormedRefs(d);
    MoneyFollows(d, Inserted(d, f), balances);
  }

  /** Stock and parties do not look at payments, accounts, transfers or loans. */
  lemma GoodsFollow(d: Docs, d': Docs, stock: seq<real>, levels: map<(nat, nat), real>, dues: seq<real>)
    requires d' == d.(accounts := d'.accounts, pays := d'.pays, transfers := d'.transfers, loans := d'.loans,
                      allocs := d'.allocs)
    requires StockAgrees(d, stock, levels) && PartiesAgree(d, dues)
    ensures StockAgrees(d', stock, levels) && PartiesAgree(d', dues)
  {
    forall i: nat, w: nat
      ensures LevelAt(levels, i, w) == LevelDue(d', i, w)
    {
      assert LevelDue(d, i, w) == LevelDue(d', i, w);
    }
    forall p: nat | p < |dues| ensures dues[p] == PartyDue(d', p) { assert PartyDue(d, p) == PartyDue(d', p); }
  }

  // ----- Master data and stock outside documents -----

  lemma OtherTablesKeepWellFormed(d: Docs, d': Docs)
    requires WellFormed(d)
    requires d' == d.(warehouses := d'.warehouses, transfers := d'.transfers, loans := d'.loans,
                      stockOps := d'.stockOps)
    requires d'.warehouses == d.warehouses || exists b :: d'.warehouses == ResolveWarehouse(d.warehouses, b)
    requires forall k {:trigger OpOk(d', d'.stockOps[k])} :: 0 <= k < |d'.stockOps| ==> OpOk(d', d'.stockOps[k])
    requires forall k {:trigger TransferOk(d', d'.transfers[k])} :: 0 <= k < |d'.transfers|
               ==> TransferOk(d', d'.transfers[k])
    requires forall k :: 0 <= k < |d'.loans| ==> d'.loans[k].account < |d.accounts|
    ensures WellFormed(d')
  {
    forall k | 0 <= k < |d'.pays| ensures PayOk(d', d'.pays[k]) { assert PayOk(d, d.pays[k]); }
    forall k | 0 <= k < |d'.allocs| ensures AllocOk(d', d'.allocs[k]) { assert AllocOk(d, d.allocs[k]); }
    if d'.warehouses != d.warehouses {
      var b :| d'.warehouses == ResolveWarehouse(d.warehouses, b);
      ResolveKeepsHomes(d, b);
    }
    forall x | 0 <= x < |d'.txns| ensures TxnOk(d', x) && HomeOk(d', d'.txns[x]) {
      assert TxnOk(d, x) && HomeOk(d, d.txns[x]);
      assert HomeOk(d.(warehouses := d'.warehouses), d.txns[x]);
    }
  }

  /** A stock change outside documents moves one item and one level. */
  lemma OpMoves(d: Docs, d': Docs, o: StockOp, i: nat, w: nat)
    requires d' == d.(warehouses := d'.warehouses, stockOps := d.stockOps + [o])
    requires d'.warehouses == d.warehouses || exists b :: d'.warehouses == ResolveWarehouse(d.warehouses, b)
    requires WellFormed(d)
    ensures StockDue(d', i) == StockDue(d, i) + OpStock(i)(o)
    ensures LevelDue(d', i, w) == LevelDue(d, i, w) + OpLevel(i, w)(o)
  {
    SumAppend(d.stockOps, o, OpStock(i));
    SumAppend(d.stockOps, o, OpLevel(i, w));
    if d'.warehouses != d.warehouses {
      var b :| d'.warehouses == ResolveWarehouse(d.warehouses, b);
      ResolveKeepsLevels(d, b, i, w);
    }
  }

  lemma OpColumns(d: Docs, d': Docs, o: StockOp, s: seq<real>, s': seq<real>, l: map<(nat, nat), real>,
                  l': map<(nat, nat), real>)
    requires d' == d.(warehouses := d'.warehouses, stockOps := d.stockOps + [o])
    requires d'.warehouses == d.warehouses || exists b :: d'.warehouses == ResolveWarehouse(d.warehouses, b)
    requires WellFormed(d) && OpOk(d', o) && |d'.warehouses| >= |d.warehouses|
    requires StockAgrees(d, s, l)
    requires |s'| == |s| && forall i: nat :: i < |s| ==> s'[i] == s[i] + OpStock(i)(o)
    requires forall i: nat, w: nat :: LevelAt(l', i, w) == LevelAt(l, i, w) + OpLevel(i, w)(o)
    ensures WellFormed(d') && StockAgrees(d', s', l')
  {
    forall k | 0 <= k < |d'.stockOps|
      ensures OpOk(d', d'.stockOps[k])
    {
      if k < |d.stockOps| { assert OpOk(d, d.stockOps[k]); }
    }
    forall k | 0 <= k < |d'.transfers| ensures TransferOk(d', d'.transfers[k]) { assert TransferOk(d, d.transfers[k]); }
    OtherTablesKeepWellFormed(d, d');
    forall i: nat | i < |s'| ensures s'[i] == StockDue(d', i) { OpMoves(d, d', o, i, 0); }
    forall i: nat, w: nat ensures LevelAt(l', i, w) == LevelDue(d', i, w) { OpMoves(d, d', o, i, w); }
  }

  lemma NewItemTables(d: Docs, x: Item)
    requires WellFormed(d) && ItemOk(x)
    ensures WellFormed(d.(items := d.items + [x]))
  {
    var d' := d.(items := d.items + [x]);
    forall id | 0 <= id < |d.txns| ensures TxnOk(d', id) && HomeOk(d', d'.txns[id]) {
      assert TxnOk(d, id) && HomeOk(d, d.txns[id]);
      SameTracked(d, x, id);
      forall k | 0 <= k < |d.txns[id].lines|
        ensures LineOk(d'.items, d.txns[id].lines[k])
      {
        assert LineOk(d.items, d.txns[id].lines[k]);
      }
    }
    forall k | 0 <= k < |d'.pays| ensures PayOk(d', d'.pays[k]) { assert PayOk(d, d.pays[k]); }
    forall k | 0 <= k < |d'.allocs| ensures AllocOk(d', d'.allocs[k]) { assert AllocOk(d, d.allocs[k]); }
    forall k | 0 <= k < |d'.stockOps| ensures OpOk(d', d'.stockOps[k]) { assert OpOk(d, d.stockOps[k]); }
    forall k | 0 <= k < |d'.transfers| ensures TransferOk(d', d'.transfers[k]) { assert TransferOk(d, d.transfers[k]); }
    forall k | 0 <= k < |d'.items| ensures ItemOk(d'.items[k]) { if k < |d.items| { assert ItemOk(d.items[k]); } }
  }

  /** A new item is in no document yet, so it changes nothing and stands at zero. */
  lemma NewItem(d: Docs, x: Item, s: seq<real>, l: map<(nat, nat), real>)
    requires WellFormed(d) && ItemOk(x) && StockAgrees(d, s, l)
    ensures var d' := d.(items := d.items + [x]); WellFormed(d') && StockAgrees(d', s + [0.0], l)
  {
    NewItemTables(d, x);
    var d' := d.(items := d.items + [x]);
    var n := |d.items|;
    forall id: nat, i: nat | id < |d.txns|
      ensures Demand(d'.items, d.txns[id].lines, i) == Demand(d.items, d.txns[id].lines, i)
    {
      var lines := d.txns[id].lines;
      assert TxnOk(d, id);
      forall k | 0 <= k < |lines| ensures LineDemand(d'.items, i)(lines[k]) == LineDemand(d.items, i)(lines[k]) {
        assert LineOk(d.items, lines[k]);
      }
      SumPointwise(lines, lines, LineDemand(d'.items, i), LineDemand(d.items, i));
    }
    forall i: nat ensures Sum(d.txns, TxnStock(d'.items, i)) == Sum(d.txns, TxnStock(d.items, i)) {
      SumPointwise(d.txns, d.txns, TxnStock(d'.items, i), TxnStock(d.items, i));
    }
    forall i: nat, w: nat ensures LevelDue(d', i, w) == LevelDue(d, i, w) {
      SumPointwise(d.txns, d.txns, TxnLevel(d'.items, d.warehouses, i, w), TxnLevel(d.items, d.warehouses, i, w));
    }
    NewItemZero(d, n);
  }

  lemma SameTracked(d: Docs, x: Item, id: nat)
    requires WellFormed(d) && id < |d.txns|
    ensures HasTracked(d.items + [x], d.txns[id].lines) == HasTracked(d.items, d.txns[id].lines)
  {
    var lines := d.txns[id].lines;
    assert TxnOk(d, id);
    forall k | 0 <= k < |lines| ensures LineTracked(d.items + [x], lines[k]) == LineTracked(d.items, lines[k]) {
      assert LineOk(d.items, lines[k]);
    }
  }

  lemma NewItemZero(d: Docs, i: nat)
    requires WellFormed(d) && i >= |d.items|
    ensures StockDue(d, i) == 0.0
  {
    forall k | 0 <= k < |d.txns| ensures TxnStock(d.items, i)(d.txns[k]) == 0.0 {
      SumZero(d.txns[k].lines, LineDemand(d.items, i));
      WeighZero(d.txns[k].net);
    }
    SumZero(d.txns, TxnStock(d.items, i));
    forall k | 0 <= k < |d.stockOps| ensures OpStock(i)(d.stockOps[k]) == 0.0 { assert OpOk(d, d.stockOps[k]); }
    SumZero(d.stockOps, OpStock(i));
  }

  lemma NewPartyZero(d: Docs, opening: real)
    requires WellFormed(d)
    ensures WellFormed(AddParty(d, opening))
    ensures PartyDue(AddParty(d, opening), |d.parties|) == opening
    ensures forall p: nat :: p < |d.parties| ==> PartyDue(AddParty(d, opening), p) == PartyDue(d, p)
  {
    var d' := AddParty(d, opening);
    forall k | 0 <= k < |d.txns| ensures TxnParty(|d.parties|)(d.txns[k]) == 0.0 { assert TxnOk(d, k); }
    SumZero(d.txns, TxnParty(|d.parties|));
    forall x | 0 <= x < |d'.txns|
      ensures TxnOk(d', x) && HomeOk(d', d'.txns[x])
    {
      assert TxnOk(d, x) && HomeOk(d, d.txns[x]);
    }
    forall k | 0 <= k < |d'.pays| ensures PayOk(d', d'.pays[k]) { assert PayOk(d, d.pays[k]); }
    forall k | 0 <= k < |d'.allocs| ensures AllocOk(d', d'.allocs[k]) { assert AllocOk(d, d.allocs[k]); }
    forall k | 0 <= k < |d'.stockOps| ensures OpOk(d', d'.stockOps[k]) { assert OpOk(d, d.stockOps[k]); }
    forall k | 0 <= k < |d'.transfers| ensures TransferOk(d', d'.transfers[k]) { assert TransferOk(d, d.transfers[k]); }
  }

  /** Payment rows and accounts may change as long as the references between them stay good. */
  lemma MoneyTablesKeepWellFormed(d: Docs, d': Docs)
    requires WellFormed(d) && MoneyRefs(d')
    requires d' == d.(accounts := d'.accounts, pays := d'.pays)
    requires |d'.pays| == |d.pays|
    requires forall k :: 0 <= k < |d.pays| ==> d'.pays[k] == d.pays[k].(slip := d'.pays[k].slip)
    ensures WellFormed(d')
  {
    forall x | 0 <= x < |d'.txns| ensures TxnOk(d', x) && HomeOk(d', d'.txns[x]) {
      assert TxnOk(d, x) && HomeOk(d, d.txns[x]);
      SumPointwise(d.pays, d'.pays, RowAmount(x), RowAmount(x));
    }
    forall k | 0 <= k < |d'.pays|
      ensures PayOk(d', d'.pays[k])
    {
      assert PayOk(d, d.pays[k]);
      assert PayRefs(d'.accounts, d'.pays[k]);
    }
    forall k | 0 <= k < |d'.allocs| ensures AllocOk(d', d'.allocs[k]) { assert AllocOk(d, d.allocs[k]); }
    forall k | 0 <= k < |d'.stockOps| ensures OpOk(d', d'.stockOps[k]) { assert OpOk(d, d.stockOps[k]); }
  }

  lemma PartiesLookAt(d: Docs, d': Docs, dues: seq<real>)
    requires PartiesAgree(d, dues) && d.parties == d'.parties && d.txns == d'.txns
    ensures PartiesAgree(d', dues)
  {
    forall p: nat | p < |dues| ensures dues[p] == PartyDue(d', p) { assert PartyDue(d, p) == PartyDue(d', p); }
  }

  /** A party without entries stands at zero. */
  lemma NewLedger(dues: seq<real>, ledger: seq<Entry>)
    requires LedgerAgrees(dues, ledger)
    ensures LedgerAgrees(dues + [0.0], ledger)
  {
    forall k | 0 <= k < |ledger| ensures EntryOk(dues + [0.0], ledger, k) && EntryAmount(|dues|)(ledger[k]) == 0.0 {
      assert EntryOk(dues, ledger, k);
    }
    SumZero(ledger, EntryAmount(|dues|));
  }

  lemma TransferMovements(ms: seq<Movement>, i: nat, from: nat, to: nat, quantity: real)
    ensures forall j: nat, w: nat ::
              Sum(ms + [Movement(i, from, -quantity), Movement(i, to, quantity)], MoveAmount(j, w))
              == Sum(ms, MoveAmount(j, w)) - (if j == i && w == from then quantity else 0.0)
                 + (if j == i && w == to then quantity else 0.0)
  {
    forall j: nat, w: nat
      ensures Sum(ms + [Movement(i, from, -quantity), Movement(i, to, quantity)], MoveAmount(j, w))
              == Sum(ms, MoveAmount(j, w)) - (if j == i && w == from then quantity else 0.0)
                 + (if j == i && w == to then quantity else 0.0)
    {
      SumAppend(ms, Movement(i, from, -quantity), MoveAmount(j, w));
      SumAppend(ms + [Movement(i, from, -quantity)], Movement(i, to, quantity), MoveAmount(j, w));
      assert ms + [Movement(i, from, -quantity)] + [Movement(i, to, quantity)]
             == ms + [Movement(i, from, -quantity), Movement(i, to, quantity)];
    }
  }

  lemma TransferColumns(d: Docs, x: Transfer, before: seq<real>, after: seq<real>)
    requires WellFormed(d) && MoveMoneyOk(d, x) && MoneyAgrees(d, before)
    requires |after| == |before| && forall a: nat :: a < |before| ==> after[a] == before[a] + TransferMoney(a)(x)
    ensures WellFormed(MoveMoney(d, x)) && MoneyAgrees(MoveMoney(d, x), after)
  {
    var d' := MoveMoney(d, x);
    forall a: nat | a < |after| ensures after[a] == AccountDue(d', a) { SumAppend(d.transfers, x, TransferMoney(a)); }
    forall k | 0 <= k < |d'.stockOps| ensures OpOk(d', d'.stockOps[k]) { assert OpOk(d, d.stockOps[k]); }
    forall k | 0 <= k < |d'.transfers|
      ensures TransferOk(d', d'.transfers[k])
    {
      if k < |d.transfers| { assert TransferOk(d, d.transfers[k]); }
    }
    OtherTablesKeepWellFormed(d, d');
  }

  lemma TransferStockColumns(d: Docs, i: nat, from: nat, to: nat, quantity: real, s: seq<real>,
                             l: map<(nat, nat), real>, l': map<(nat, nat), real>)
    requires WellFormed(d) && AtWarehouseOk(d, i, from) && AtWarehouseOk(d, i, to) && StockAgrees(d, s, l)
    requires (i, from) in l
    requires l' == l[(i, from) := l[(i, from)] - quantity][(i, to) := LevelAt(l, i, to) + quantity]
    ensures WellFormed(TransferStock(d, i, from, to, quantity))
            && StockAgrees(TransferStock(d, i, from, to, quantity), s, l')
  {
    var leave, enter := StockOp(i, Some(from), -quantity, false), StockOp(i, Some(to), quantity, false);
    if from == to {
      OpColumns(d, d.(stockOps := d.stockOps + [enter]), enter, s, s, l, l');
    } else {
      var d1 := d.(stockOps := d.stockOps + [leave]);
      OpColumns(d, d1, leave, s, s, l, l[(i, from) := l[(i, from)] - quantity]);
      OpColumns(d1, d1.(stockOps := d1.stockOps + [enter]), enter, s, s, l[(i, from) := l[(i, from)] - quantity], l');
      assert d.stockOps + [leave] + [enter] == d.stockOps + [leave, enter];
    }
  }

  /** Movements explain the levels after a transfer exactly when it was between two warehouses
      (or of nothing). */
  lemma TransferExplained(l: map<(nat, nat), real>, ms: seq<Movement>, i: nat, from: nat, to: nat, quantity: real)
    requires (i, from) in l && MovementsAgree(l, ms)
    ensures MovementsAgree(l[(i, from) := l[(i, from)] - quantity][(i, to) := LevelAt(l, i, to) + quantity],
                           ms + [Movement(i, from, -quantity), Movement(i, to, quantity)])
            <==> from != to || quantity == 0.0
  {
    var l' := l[(i, from) := l[(i, from)] - quantity][(i, to) := LevelAt(l, i, to) + quantity];
    var ms' := ms + [Movement(i, from, -quantity), Movement(i, to, quantity)];
    TransferMovements(ms, i, from, to, quantity);
    if from != to || quantity == 0.0 {
      forall j: nat, w: nat
        ensures LevelAt(l', j, w) == Sum(ms', MoveAmount(j, w))
      {
        assert LevelAt(l, j, w) == Sum(ms, MoveAmount(j, w));
      }
    } else {
      assert LevelAt(l, i, to) == Sum(ms, MoveAmount(i, to));
      assert LevelAt(l', i, to) != Sum(ms', MoveAmount(i, to));
    }
  }

  /** A move between warehouses leaves money, bills and parties as they are. */
  lemma TransferStockElsewhere(d: Docs, i: nat, from: nat, to: nat, quantity: real, dues: seq<real>,
                               balances: seq<real>, paid: seq<real>, owed: seq<real>)
    requires WellFormed(d) && PartiesAgree(d, dues) && MoneyAgrees(d, balances) && BillsAgree(d, paid, owed)
    ensures var d' := TransferStock(d, i, from, to, quantity);
            PartiesAgree(d', dues) && MoneyAgrees(d', balances) && BillsAgree(d', paid, owed)
  {
    var d' := TransferStock(d, i, from, to, quantity);
    WellFormedRefs(d);
    MoneyFollows(d, d', balances);
    BillsFollow(d, d', paid, owed);
    PartiesLookAt(d, d', dues);
  }
}
