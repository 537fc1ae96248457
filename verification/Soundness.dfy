/** Every live posted document counts once and nothing else counts: exactly which operations keep
    that so, and what the totals then are. */
module Soundness {
  import opened Wrappers
  import opened Sums
  import opened Books
  import opened Steps
  import opened Laws
  import opened PostingLaws
  import opened Runs

  predicate Live(t: Txn) { !t.deleted && !t.status.Held? }

  /** A bill parked by the till and not yet charged or thrown away. */
  predicate Parked(t: Txn) { t.status.Held? && !t.deleted }

  /** Each document's effects are in the books once if it is live and posted, and not otherwise. */
  ghost predicate Sound(d: Docs) {
    forall id :: 0 <= id < |d.txns| ==> Counted(d.txns[id])
  }

  predicate Counted(t: Txn) { t.net == if Live(t) then 1 else 0 }

  /** The operation does not charge a deleted bill and does not lift the hold of a parked one without
      posting it: by allocating to it, converting it, failing to convert it, deleting a conversion of
      it, or marking it as refunded. */
  ghost predicate Orderly(d: Docs, st: Step) {
    match st
    case DoCreate(f) =>
      !f.OnHold() && IsPayment(f.kind) ==>
        forall k :: 0 <= k < |f.allocations| && f.allocations[k].against < |d.txns|
            ==> !Parked(d.txns[f.allocations[k].against])
    case DoResume(id, edit, ps) => id < |d.txns| ==> !d.txns[id].deleted
    case DoDelete(id) => id < |d.txns| && d.txns[id].source.Some? && d.txns[id].source.value < |d.txns|
        ==> !Parked(d.txns[d.txns[id].source.value])
    case DoClaim(id, lines) => id < |d.txns| && Parked(d.txns[id]) ==> ClaimedStatus(d, id, lines).Held?
    case DoRelease(id, seen) => id < |d.txns| && Parked(d.txns[id]) ==> seen.Held?
    case DoMark(id) => id < |d.txns| ==> !Parked(d.txns[id])
    case _ => true
  }

  lemma PostSound(d: Docs, id: nat, ps: seq<PayIn>, als: seq<AllocIn>)
    requires Fresh(d, id) && PostOk(d, id, ps, als)
    requires forall x :: 0 <= x < |d.txns| && x != id ==> Counted(d.txns[x])
    ensures Sound(Post(d, id, ps, als)) <==>
            !d.txns[id].deleted
            && (IsPayment(d.txns[id].kind) ==> forall k :: 0 <= k < |als| ==> !Parked(d.txns[als[k].against]))
  {
    var used := if IsPayment(d.txns[id].kind) then als else [];
    var t' := PostedTxn(d, id, ps);
    var d' := Post(d, id, ps, als);
    forall x | 0 <= x < |d.txns|
      ensures d'.txns[x].net == (if x == id then 1 else d.txns[x].net)
      ensures Live(d'.txns[x]) == (Live(d.txns[x]) || (TargetsIn(used)(x) && Parked(d.txns[x])))
    {
      RestatedHold(d.(warehouses := d'.warehouses, accounts := d'.accounts, pays := d'.pays, allocs := d'.allocs,
                      txns := d.txns[id := t']), TargetsIn(used), x);
    }
    if k :| 0 <= k < |used| && Parked(d.txns[used[k].against]) {
      assert AllocInOk(d, d.txns[id].kind, d.txns[id].party, used[k]);
      assert TargetsIn(used)(used[k].against);
      assert !Counted(d'.txns[used[k].against]);
    } else {
      forall x | 0 <= x < |d.txns| && x != id ensures Counted(d'.txns[x]) {
        if TargetsIn(used)(x) { var k :| 0 <= k < |used| && used[k].against == x; }
      }
      if d.txns[id].deleted { assert !Counted(d'.txns[id]); } else { assert Counted(d'.txns[id]); }
    }
  }

  /** Restating a bill lifts a hold on it and changes no other bill's. */
  lemma RestatedHold(d: Docs, touched: nat -> bool, x: nat)
    requires x < |d.txns|
    ensures Restated(d, touched)[x].status.Held? <==> d.txns[x].status.Held? && !touched(x)
    ensures SameFigures(d.txns[x], Restated(d, touched)[x]) && Restated(d, touched)[x].deleted == d.txns[x].deleted
  {
    assert !BillStatus(d.txns[x].total, PaidDue(d, x)).Held?;
  }

  lemma TurnSound(d: Docs, d': Docs, id: nat, step: int, x: nat)
    requires WellFormed(d) && id < |d.txns| && !d.txns[id].status.Held? && x < |d.txns|
    requires (d' == Unpost(d, id) && step == -1) || (d' == Repost(d, id) && step == 1)
    ensures d'.txns[x].net == d.txns[x].net + (if x == id then step else 0)
    ensures d'.txns[x].deleted == d.txns[x].deleted && d'.txns[x].status.Held? == d.txns[x].status.Held?
    ensures d'.txns[x].source == d.txns[x].source
  {
    var base := d.(warehouses := d'.warehouses, pays := d'.pays, allocs := d'.allocs,
                   txns := d.txns[id := Renetted(d, id, step)]);
    RestatedHold(base, TargetsOf(d.allocs, id), x);
    if TargetsOf(d.allocs, id)(x) {
      var k :| 0 <= k < |d.allocs| && d.allocs[k].pay == id && d.allocs[k].against == x;
      assert AllocOk(d, d.allocs[k]);
    }
  }

  lemma DeleteSound(d: Docs, id: nat)
    requires WellFormed(d) && Sound(d) && DeleteOk(d, id)
    ensures Sound(Delete(d, id)) <==> Orderly(d, DoDelete(id))
  {
    var t, d' := d.txns[id], Delete(d, id);
    assert TxnOk(d, id) && Counted(t);
    forall x: nat | x < |d.txns|
      ensures d'.txns[x].net == (if x == id then 0 else d.txns[x].net)
      ensures Live(d'.txns[x]) == (if x == id then false else Live(d.txns[x])
                                                              || (t.source == Some(x) && Parked(d.txns[x])))
    {
      if !t.status.Held? { TurnSound(d, Unpost(d, id), id, -1, x); }
    }
    if t.source.Some? && Parked(d.txns[t.source.value]) {
      assert Counted(d.txns[t.source.value]);
      assert !Counted(d'.txns[t.source.value]);
    } else {
      forall x | 0 <= x < |d'.txns| ensures Counted(d'.txns[x]) { assert Counted(d.txns[x]); }
    }
  }

  lemma RestoreSound(d: Docs, id: nat)
    requires WellFormed(d) && Sound(d) && RestoreOk(d, id)
    ensures Sound(Restore(d, id))
  {
    var d' := Restore(d, id);
    forall x: nat | x < |d'.txns| ensures Counted(d'.txns[x]) {
      assert Counted(d.txns[x]);
      if !d.txns[id].status.Held? { TurnSound(d, Repost(d, id), id, 1, x); }
    }
  }

  /** A status write keeps the books sound exactly when it does not lift the hold of a parked bill. */
  lemma StatusSound(d: Docs, id: nat, s: Status)
    requires WellFormed(d) && Sound(d) && id < |d.txns| && (s.Held? ==> NeverMoved(d, id))
    ensures Sound(WithStatus(d, id, s)) <==> (Parked(d.txns[id]) ==> s.Held?)
  {
    var d' := WithStatus(d, id, s);
    assert TxnOk(d, id) && Counted(d.txns[id]);
    forall x | 0 <= x < |d.txns| && x != id ensures Counted(d'.txns[x]) { assert Counted(d.txns[x]); }
    assert Sound(d') <==> Counted(d'.txns[id]);
  }

  lemma StatusStepSound(d: Docs, st: Step)
    requires WellFormed(d) && Sound(d) && Allowed(d, st) && OnStatus(st)
    ensures Sound(Next(d, st)) <==> Orderly(d, st)
  {
    match st
    case DoClaim(id, lines) =>
      if ClaimedStatus(d, id, lines).Held? { ClaimedHeld(d, id, lines); }
      StatusSound(d, id, ClaimedStatus(d, id, lines));
    case DoRelease(id, seen) => StatusSound(d, id, seen);
    case DoMark(id) => StatusSound(d, id, Refunded);
  }

  /** From books where every live document counts once, an operation that goes through leaves
      them so exactly when it is orderly. */
  lemma SoundNext(d: Docs, st: Step)
    requires WellFormed(d) && Sound(d) && Allowed(d, st)
    ensures Sound(Next(d, st)) <==> Orderly(d, st)
  {
    match st
    case DoCreate(f) =>
      var d1 := Inserted(d, f);
      InsertKeepsWellFormed(d, f);
      forall x | 0 <= x < |d.txns| ensures Counted(d1.txns[x]) { assert Counted(d.txns[x]); }
      if !f.OnHold() {
        PostSound(d1, |d.txns|, KeptPayments(f), f.allocations);
        CreateOrderly(d, f);
      }
    case DoResume(id, edit, ps) =>
      ChargeIsFresh(d, id, edit, ps);
      var d1 := Charged(d, id, edit, ps);
      forall x | 0 <= x < |d.txns| && x != id ensures Counted(d1.txns[x]) { assert Counted(d.txns[x]); }
      PostSound(d1, id, ps, []);
    case DoDelete(id) => DeleteSound(d, id);
    case DoRestore(id) => RestoreSound(d, id);
    case DoClaim(_, _) => StatusStepSound(d, st);
    case DoRelease(_, _) => StatusStepSound(d, st);
    case DoMark(_) => StatusStepSound(d, st);
    case _ => assert Next(d, st).txns == d.txns;
  }

  lemma CreateOrderly(d: Docs, f: Draft)
    requires CreateOk(d, f) && !f.OnHold()
    ensures Orderly(d, DoCreate(f)) <==>
            (IsPayment(f.kind) ==> forall k :: 0 <= k < |f.allocations|
                                     ==> !Parked(Inserted(d, f).txns[f.allocations[k].against]))
  {
    if IsPayment(f.kind) {
      forall k | 0 <= k < |f.allocations|
        ensures f.allocations[k].against < |d.txns|
                && Inserted(d, f).txns[f.allocations[k].against] == d.txns[f.allocations[k].against]
      {
        assert AllocInOk(Inserted(d, f), f.kind, f.party, f.allocations[k]);
      }
    }
  }

  /** Over a whole run of orderly operations, every live posted document counts exactly once. */
  lemma {:induction false} SoundRun(d: Docs, steps: seq<Step>)
    requires WellFormed(d) && Sound(d)
    requires forall n {:trigger steps[n]} :: 0 <= n < |steps| ==> Orderly(Run(d, steps[..n]), steps[n])
    ensures Sound(Run(d, steps))
  {
    if |steps| > 0 {
      var n := |steps| - 1;
      var init := steps[..n];
      forall m | 0 <= m < n ensures Orderly(Run(d, init[..m]), init[m]) {
        assert init[..m] == steps[..m] && init[m] == steps[m];
      }
      SoundRun(d, init);
      RunKeepsWellFormed(d, init);
      assert Orderly(Run(d, steps[..n]), steps[n]);
      if Allowed(Run(d, init), steps[n]) { SoundNext(Run(d, init), steps[n]); }
    }
  }

  // ----- What sound totals are -----

  function LiveStock(items: seq<Item>, i: nat): Txn -> real {
    (t: Txn) => if Live(t) then Moves(items, t, i) else 0.0
  }

  function LiveParty(p: nat): Txn -> real {
    (t: Txn) => if Live(t) then PartyShift(t, p, Delta(t, t.base)) else 0.0
  }

  /** Charged with what its rows say: no negative payments went into it. */
  predicate Straight(t: Txn) {
    if t.status.Held? then !t.posted else Delta(t, t.base) == Delta(t, t.settled)
  }

  lemma CountedOnce(items: seq<Item>, t: Txn, i: nat, p: nat)
    requires Counted(t) && Straight(t)
    ensures TxnStock(items, i)(t) == LiveStock(items, i)(t)
    ensures TxnParty(p)(t) == LiveParty(p)(t)
  {
    assert Skew(t) == 0.0;
    var moved, delta := Moves(items, t, i), Delta(t, t.settled);
    assert Weigh(1, moved) == moved && Weigh(1, delta) == delta;
    assert Weigh(1, t.total) == t.total && Weigh(1, -t.total) == -t.total;
    assert Weigh(0, moved) == 0.0 && Weigh(0, delta) == 0.0 && Weigh(0, t.total) == 0.0 && Weigh(0, -t.total) == 0.0;
  }

  /** In sound books stock is opening stock and adjustments plus the live documents' quantities, and
      a party owes its opening balance plus what the live documents left unpaid when posted. */
  lemma SoundTotals(d: Docs, i: nat, p: nat)
    requires Sound(d) && p < |d.parties|
    requires forall k :: 0 <= k < |d.txns| ==> Straight(d.txns[k])
    ensures StockDue(d, i) == Sum(d.stockOps, OpStock(i)) + Sum(d.txns, LiveStock(d.items, i))
    ensures PartyDue(d, p) == d.parties[p] + Sum(d.txns, LiveParty(p))
  {
    forall k | 0 <= k < |d.txns|
      ensures TxnStock(d.items, i)(d.txns[k]) == LiveStock(d.items, i)(d.txns[k])
      ensures TxnParty(p)(d.txns[k]) == LiveParty(p)(d.txns[k])
    {
      CountedOnce(d.items, d.txns[k], i, p);
    }
    SumPointwise(d.txns, d.txns, TxnStock(d.items, i), LiveStock(d.items, i));
    SumPointwise(d.txns, d.txns, TxnParty(p), LiveParty(p));
  }
}
