/** Deleting and restoring, any number of times, comes back to the posted document. */
module Restoring {
  import opened Wrappers
  import opened Books
  import opened Steps
  import opened Laws
  import opened PostingLaws
  import opened Runs
  import opened Recycle
  import opened History

  /** The document's cheques all in hand again, settled or not. */
  function FreshCheques(pays: seq<Pay>, id: nat): seq<Pay> {
    seq(|pays|, k requires 0 <= k < |pays| => if pays[k].txn == id
                                                && pays[k].tender.Cheque? then pays[k].(slip := OpenSlip) else pays[k])
  }

  /** Each bill the payment allocates to shows the status its paid amount calls for. */
  ghost predicate StatusesCurrent(d: Docs, id: nat) {
    forall x: nat :: x < |d.txns| && TargetsOf(d.allocs, id)(x)
        ==> d.txns[x].status == BillStatus(d.txns[x].total, PaidDue(d, x))
  }

  /** What deleting and then restoring a live posted document leaves: the same books, its cheques
      fresh, and the document it was converted from open again. */
  ghost function Revived(d: Docs, id: nat): Docs
    requires id < |d.txns|
  {
    d.(txns := Reopened(d.txns, d.txns[id].source), pays := FreshCheques(d.pays, id))
  }

  lemma ShiftBack(als: seq<Alloc>, id: nat)
    ensures Shifted(Shifted(als, id, -1), id, 1) == als
    ensures forall x: nat :: TargetsOf(Shifted(als, id, -1), id)(x) == TargetsOf(als, id)(x)
  {
    var shifted := Shifted(als, id, -1);
    forall k | 0 <= k < |als| ensures Shifted(shifted, id, 1)[k] == als[k] { assert als[k].Alloc?; }
    forall x: nat ensures TargetsOf(shifted, id)(x) == TargetsOf(als, id)(x) {
      if TargetsOf(als, id)(x) {
        var k :| 0 <= k < |als| && als[k].pay == id && als[k].against == x;
        assert shifted[k].pay == id && shifted[k].against == x;
      }
    }
  }

  lemma RedoUndo(accounts: seq<Account>, branch: Option<nat>, r: Pay)
    ensures RedoPay(accounts, branch, UndoPay(accounts, branch, r))
            == if r.tender.Cheque? then r.(slip := OpenSlip) else r
  {
    assert r.Pay?;
  }

  lemma RestoreUndoesDelete(d: Docs, id: nat)
    requires WellFormed(d) && DeleteOk(d, id)
    requires d.txns[id].net == 1 && !d.txns[id].status.Held? && StatusesCurrent(d, id)
    requires d.txns[id].source.Some? ==> !TargetsOf(d.allocs, id)(d.txns[id].source.value)
    ensures Restore(Delete(d, id), id) == Revived(d, id)
  {
    var t := d.txns[id];
    var d1 := Delete(d, id);
    var d2 := Restore(d1, id);
    assert TxnOk(d, id) && HomeOk(d, t);
    UnpostTurns(d, id);
    NoSelfTarget(d, id);
    assert d1.txns[id] == t.(net := 0, deleted := true);
    ShiftBack(d.allocs, id);
    assert d2.allocs == d.allocs;
    assert d2.warehouses == d.warehouses;
    assert d2.pays == FreshCheques(d.pays, id) by {
      forall k | 0 <= k < |d.pays| ensures d2.pays[k] == FreshCheques(d.pays, id)[k] {
        RedoUndo(d.accounts, t.branch, d.pays[k]);
      }
    }
    RestoredTxns(d, d1, d2, id);
  }

  /** A payment is not a bill, so it never allocates to itself. */
  lemma NoSelfTarget(d: Docs, id: nat)
    requires WellFormed(d) && id < |d.txns|
    ensures !TargetsOf(d.allocs, id)(id)
  {
    forall k | 0 <= k < |d.allocs| && d.allocs[k].pay == id
      ensures d.allocs[k].against != id
    {
      assert AllocOk(d, d.allocs[k]);
    }
  }

  lemma RestoredTxns(d: Docs, d1: Docs, d2: Docs, id: nat)
    requires WellFormed(d) && id < |d.txns| && d1 == Delete(d, id) && d2 == Restore(d1, id)
    requires !d.txns[id].deleted && !d.txns[id].status.Held? && StatusesCurrent(d, id)
    requires d.txns[id].source.Some? ==> !TargetsOf(d.allocs, id)(d.txns[id].source.value)
    requires d1.txns[id] == d.txns[id].(net := d.txns[id].net - 1, deleted := true)
    requires d2.allocs == d.allocs
    ensures d2.txns == Reopened(d.txns, d.txns[id].source)
  {
    var t := d.txns[id];
    assert TxnOk(d, id);
    NoSelfTarget(d, id);
    ShiftBack(d.allocs, id);
    var r := Repost(d1, id);
    var before := d1.(allocs := r.allocs, txns := d1.txns[id := Renetted(d1, id, 1)], pays := r.pays,
                      warehouses := r.warehouses);
    forall x: nat | x < |d.txns| ensures d2.txns[x] == Reopened(d.txns, t.source)[x] {
      assert d.txns[x].Txn?;
      assert PaidDue(before, x) == PaidDue(d, x) by {
        assert SameFigures(d.txns[x], before.txns[x]);
        PaidDueLooksAt(before, d, x);
      }
      assert r.txns == Restated(before, TargetsOf(d1.allocs, id));
    }
  }

  // ----- When restoring goes through -----

  lemma DeleteKeepsDocument(d: Docs, id: nat)
    requires WellFormed(d) && id < |d.txns| && !d.txns[id].status.Held?
    ensures Delete(d, id).txns[id].kind == d.txns[id].kind && Delete(d, id).txns[id].lines == d.txns[id].lines
    ensures !Delete(d, id).txns[id].status.Held? && Delete(d, id).txns[id].deleted
    ensures |Delete(d, id).txns| == |d.txns|
    ensures ChequesFree(Delete(d, id).pays, id)
  {
    UnpostTurns(d, id);
    assert TxnOk(d, id);
  }

  /** Right after a deletion, restoring is refused only if the stock guard refuses it, and that
      happens only if the item was oversold before the deletion. */
  lemma RestoreGoesThrough(d: Docs, id: nat)
    requires WellFormed(d) && DeleteOk(d, id) && !d.txns[id].status.Held?
    ensures RestoreOk(Delete(d, id), id) <==>
            (StockEffect(d.txns[id].kind) < 0 ==>
               forall i: nat :: i < |d.items| && Demand(d.items, d.txns[id].lines, i) > 0.0 ==> StockDue(d, i) >= 0.0)
  {
    var t, d' := d.txns[id], Delete(d, id);
    DeleteKeepsDocument(d, id);
    DeleteIsNetStep(d, id);
    forall i: nat ensures StockEffect(t.kind) < 0 ==> StockDue(d', i) == StockDue(d, i) + Demand(d.items, t.lines, i) {
      NetChangeStock(d, d', id, Renetted(d, id, -1), -1, i);
    }
  }

  // ----- Any number of times -----

  /** A live posted document whose cheques are in hand, whose bills show their right status, and
      whose items are not oversold. */
  ghost predicate Steady(d: Docs, id: nat) {
    && WellFormed(d) && DeleteOk(d, id) && d.txns[id].net == 1 && !d.txns[id].status.Held?
    && StatusesCurrent(d, id)
    && (d.txns[id].source.Some? ==> !TargetsOf(d.allocs, id)(d.txns[id].source.value))
    && FreshCheques(d.pays, id) == d.pays
    && (StockEffect(d.txns[id].kind) < 0 ==>
          forall i: nat :: i < |d.items| && Demand(d.items, d.txns[id].lines, i) > 0.0 ==> StockDue(d, i) >= 0.0)
  }

  ghost function DeleteRestore(d: Docs, id: nat): Docs {
    Next(Next(d, DoDelete(id)), DoRestore(id))
  }

  ghost function Once(id: nat): Docs -> Docs { (d: Docs) => DeleteRestore(d, id) }

  ghost function Iterate<T>(f: T -> T, x: T, n: nat): T {
    if n == 0 then x else f(Iterate(f, x, n - 1))
  }

  lemma {:induction false} IterateSettles<T>(f: T -> T, x: T, y: T, n: nat)
    requires f(x) == y && f(y) == y
    ensures Iterate(f, x, n) == if n == 0 then x else y
  {
    if n > 0 { IterateSettles(f, x, y, n - 1); }
  }

  /** The source of a conversion, once the conversion has been deleted, stays convertible. */
  function SourceOpen(d: Docs, id: nat): Docs
    requires id < |d.txns|
  {
    d.(txns := Reopened(d.txns, d.txns[id].source))
  }

  lemma SteadyCycle(d: Docs, id: nat)
    requires Steady(d, id)
    ensures DeleteRestore(d, id) == SourceOpen(d, id)
    ensures Steady(SourceOpen(d, id), id) && SourceOpen(SourceOpen(d, id), id) == SourceOpen(d, id)
  {
    RestoreUndoesDelete(d, id);
    RestoreGoesThrough(d, id);
    SourceOpenIsSteady(d, id);
  }

  lemma SourceOpenIsSteady(d: Docs, id: nat)
    requires Steady(d, id)
    ensures Steady(SourceOpen(d, id), id) && SourceOpen(SourceOpen(d, id), id) == SourceOpen(d, id)
  {
    var d' := SourceOpen(d, id);
    assert TxnOk(d, id);
    FlagsKeepWellFormed(d, d');
    FiguresDecide(d, d');
  }

  /** A document just posted for the first time is steady, if it can be deleted and its bills' statuses
      are current. */
  lemma PostedIsSteady(d: Docs, id: nat, ps: seq<PayIn>, als: seq<AllocIn>)
    requires Fresh(d, id) && PostOk(d, id, ps, als) && WellFormed(Post(d, id, ps, als))
    requires var d' := Post(d, id, ps, als);
             && DeleteOk(d', id) && StatusesCurrent(d', id)
             && (d'.txns[id].source.Some? ==> !TargetsOf(d'.allocs, id)(d'.txns[id].source.value))
    ensures Steady(Post(d, id, ps, als), id)
  {
    var t, d' := d.txns[id], Post(d, id, ps, als);
    PostPostsOnce(d, id, ps, als);
    TenderRows(id, t.kind, t.branch, ps, d.accounts, d.pays);
    forall k | 0 <= k < |d'.pays| ensures FreshCheques(d'.pays, id)[k] == d'.pays[k] {
      assert d'.pays[k].Pay?;
      if k < |d.pays| { assert d.pays[k].txn != id; } else { assert NewRow(id, t.kind, t.branch, d'.pays[k]); }
    }
    if StockEffect(t.kind) < 0 { PostedNotOversold(d, id, ps, als); }
  }

  lemma PostedNotOversold(d: Docs, id: nat, ps: seq<PayIn>, als: seq<AllocIn>)
    requires Fresh(d, id) && PostOk(d, id, ps, als) && StockEffect(d.txns[id].kind) < 0
    ensures forall i: nat :: i < |d.items| && Demand(d.items, d.txns[id].lines, i) > 0.0
              ==> StockDue(Post(d, id, ps, als), i) >= 0.0
  {
    PostIsNetStep(d, id, ps, als);
    forall i: nat | i < |d.items| && Demand(d.items, d.txns[id].lines, i) > 0.0
      ensures StockDue(Post(d, id, ps, als), i) >= 0.0
    {
      NetChangeStock(d, Post(d, id, ps, als), id, PostedTxn(d, id, ps), 1, i);
    }
  }

  /** A freshly created document is steady. */
  lemma CreatedIsSteady(d: Docs, f: Draft)
    requires WellFormed(d) && CreateOk(d, f) && !f.OnHold()
    requires f.source.Some? && IsPayment(f.kind) ==> !TargetsIn(f.allocations)(f.source.value)
    ensures Steady(Create(d, f), |d.txns|)
  {
    CreateKeeps(d, f);
    InsertKeepsWellFormed(d, f);
    CreatedIsUnlinked(d, f);
    CreatedStatuses(d, f);
    PostedIsSteady(Inserted(d, f), |d.txns|, KeptPayments(f), f.allocations);
  }

  /** So is a held bill just charged, if it is not in the recycle bin and nothing was converted from it. */
  lemma ChargedIsSteady(d: Docs, id: nat, edit: Option<Edit>, ps: seq<PayIn>)
    requires WellFormed(d) && ResumeOk(d, id, edit, ps) && !d.txns[id].deleted && !HasConversion(d, id)
    ensures Steady(Resume(d, id, edit, ps), id)
  {
    var d1, d' := Charged(d, id, edit, ps), Resume(d, id, edit, ps);
    ChargeIsFresh(d, id, edit, ps);
    ResumeKeeps(d, id, edit, ps);
    assert d'.allocs == d.allocs;
    forall k | 0 <= k < |d.allocs|
      ensures d.allocs[k].pay != id && d.allocs[k].against != id
    {
      assert AllocOk(d, d.allocs[k]);
    }
    forall c | 0 <= c < |d'.txns| ensures d'.txns[c].source != Some(id) {
      assert SameFigures(d1.txns[id := PostedTxn(d1, id, ps)][c], d'.txns[c]) && d.txns[c].source != Some(id);
    }
    PostedIsSteady(d1, id, ps, []);
  }

  lemma CreatedIsUnlinked(d: Docs, f: Draft)
    requires WellFormed(d) && CreateOk(d, f) && !f.OnHold()
    ensures DeleteOk(Create(d, f), |d.txns|)
    ensures var t := Create(d, f).txns[|d.txns|]; t.kind == f.kind && t.lines == f.lines && t.source == f.source
  {
    var id, d1, d' := |d.txns|, Inserted(d, f), Create(d, f);
    forall x | 0 <= x < |d'.txns|
      ensures SameFigures(d1.txns[id := PostedTxn(d1, id, KeptPayments(f))][x], d'.txns[x])
              && d'.txns[x].source != Some(id)
    {
      if x < id { assert TxnOk(d, x); }
    }
    var used := if IsPayment(f.kind) then f.allocations else [];
    forall k | 0 <= k < |d'.allocs| ensures d'.allocs[k].against != id {
      if k < |d.allocs| {
        assert AllocOk(d, d.allocs[k]);
      } else {
        assert AllocInOk(d1, f.kind, f.party, used[k - |d.allocs|]);
      }
    }
  }

  lemma NewTargets(allocs: seq<Alloc>, id: nat, used: seq<AllocIn>, x: nat)
    requires forall k :: 0 <= k < |allocs| ==> allocs[k].pay != id
    ensures TargetsOf(allocs + AllocRows(id, used), id)(x) == TargetsIn(used)(x)
  {
    var all := allocs + AllocRows(id, used);
    if TargetsIn(used)(x) {
      var k :| 0 <= k < |used| && used[k].against == x;
      assert all[|allocs| + k].against == x && all[|allocs| + k].pay == id;
    }
    if TargetsOf(all, id)(x) {
      var k :| 0 <= k < |all| && all[k].pay == id && all[k].against == x;
      assert k >= |allocs| && used[k - |allocs|].against == x;
    }
  }

  lemma CreatedStatuses(d: Docs, f: Draft)
    requires WellFormed(d) && CreateOk(d, f) && !f.OnHold()
    ensures StatusesCurrent(Create(d, f), |d.txns|)
    ensures forall x: nat ::
              TargetsOf(Create(d, f).allocs, |d.txns|)(x) == (IsPayment(f.kind) && TargetsIn(f.allocations)(x))
  {
    var id, d1, d' := |d.txns|, Inserted(d, f), Create(d, f);
    var used := if IsPayment(f.kind) then f.allocations else [];
    var t' := PostedTxn(d1, id, KeptPayments(f));
    var before := d'.(txns := d1.txns[id := t']);
    forall k | 0 <= k < |d.allocs| ensures d.allocs[k].pay != id { assert AllocOk(d, d.allocs[k]); }
    forall x: nat ensures TargetsOf(d'.allocs, id)(x) == TargetsIn(used)(x) { NewTargets(d.allocs, id, used, x); }
    assert d'.txns == Restated(before, TargetsIn(used));
    forall x: nat | x < |d'.txns| ensures PaidDue(before, x) == PaidDue(d', x) { PaidDueLooksAt(before, d', x); }
  }

  /**
    Create a document and then delete and restore it any number of times: the rows, and with them
    every derived total, are those of the one creation.  Only a document it was converted from
    differs: the first deletion opened it again and no restoration closes it.
  */
  lemma CreateThenCycles(d: Docs, f: Draft, n: nat)
    requires WellFormed(d) && CreateOk(d, f) && !f.OnHold()
    requires f.source.Some? && IsPayment(f.kind) ==> !TargetsIn(f.allocations)(f.source.value)
    ensures Iterate(Once(|d.txns|), Create(d, f), n)
            == if n == 0 then Create(d, f) else SourceOpen(Create(d, f), |d.txns|)
  {
    var id, first := |d.txns|, Create(d, f);
    CreatedIsSteady(d, f);
    SteadyCycle(first, id);
    SteadyCycle(SourceOpen(first, id), id);
    IterateSettles(Once(id), first, SourceOpen(first, id), n);
  }

  /** The same for a held bill that is charged. */
  lemma ChargeThenCycles(d: Docs, id: nat, edit: Option<Edit>, ps: seq<PayIn>, n: nat)
    requires WellFormed(d) && ResumeOk(d, id, edit, ps) && !d.txns[id].deleted && !HasConversion(d, id)
    ensures Iterate(Once(id), Resume(d, id, edit, ps), n)
         == if n == 0 then Resume(d, id, edit, ps) else SourceOpen(Resume(d, id, edit, ps), id)
  {
    var first := Resume(d, id, edit, ps);
    ChargedIsSteady(d, id, edit, ps);
    hide Resume, Steady, SourceOpen, DeleteRestore;
    SteadyCycle(first, id);
    SteadyCycle(SourceOpen(first, id), id);
    IterateSettles(Once(id), first, SourceOpen(first, id), n);
  }
}
