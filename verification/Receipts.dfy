/** Receiving an order in parts: it stays open until all of it has been received. */
module Receipts {
  import opened Wrappers
  import opened Sums
  import opened Books
  import opened Steps
  import opened PostingLaws

  /** The live conversions of the order cover every line of it. */
  predicate AllReceived(d: Docs, id: nat)
    requires id < |d.txns|
  {
    forall k :: 0 <= k < |d.txns[id].lines| ==> LineReceived(d, id, d.txns[id].lines[k])
  }

  predicate LineReceived(d: Docs, id: nat, l: Line) { l.item.Some? ==> Received(d, id, l.item.value) >= l.quantity }

  /** Statuses, effects and figures aside, these rows are of the same documents. */
  predicate SameReceipts(t: Txn, t': Txn) {
    t'.source == t.source && t'.deleted == t.deleted && t'.lines == t.lines
  }

  lemma ReceivedLooksAt(d: Docs, d': Docs, id: nat, item: nat)
    requires |d.txns| == |d'.txns| && forall k :: 0 <= k < |d.txns| ==> SameReceipts(d.txns[k], d'.txns[k])
    ensures Received(d', id, item) == Received(d, id, item)
  {
    SumPointwise(d.txns, d'.txns, ReceivedIn(id, item), ReceivedIn(id, item));
  }

  lemma CreateKeepsReceipts(d: Docs, f: Draft)
    requires WellFormed(d) && CreateOk(d, f)
    ensures |Create(d, f).txns| == |d.txns| + 1
    ensures forall k :: 0 <= k <= |d.txns| ==> SameReceipts(Inserted(d, f).txns[k], Create(d, f).txns[k])
    ensures !IsPayment(f.kind) ==> forall k :: 0 <= k < |d.txns| ==> Create(d, f).txns[k].status == d.txns[k].status
  {
    InsertKeepsWellFormed(d, f);
    if !f.OnHold() {
      PostIsNetStep(Inserted(d, f), |d.txns|, KeptPayments(f), f.allocations);
      var t' := PostedTxn(Inserted(d, f), |d.txns|, KeptPayments(f));
      forall k | 0 <= k <= |d.txns| ensures SameReceipts(Inserted(d, f).txns[k], Create(d, f).txns[k]) {
        assert SameFigures(Inserted(d, f).txns[|d.txns| := t'][k], Create(d, f).txns[k]);
      }
    }
  }

  /** A conversion adds its lines to what has been received. */
  lemma ReceiptAdds(d: Docs, f: Draft, id: nat, item: nat)
    requires WellFormed(d) && CreateOk(d, f) && f.source == Some(id)
    ensures Received(Create(d, f), id, item) == Received(d, id, item) + Sum(f.lines, ItemQuantity(item))
  {
    CreateKeepsReceipts(d, f);
    ReceivedLooksAt(Inserted(d, f), Create(d, f), id, item);
    SumAppend(d.txns, NewTxn(f), ReceivedIn(id, item));
  }

  lemma ClaimKeepsReceipts(d: Docs, id: nat, lines: Option<seq<Line>>, item: nat)
    requires id < |d.txns|
    ensures Received(Claim(d, id, lines), id, item) == Received(d, id, item)
  {
    ReceivedLooksAt(d, Claim(d, id, lines), id, item);
  }

  /**
    An order of which some lines are received: claimed first and the receipt created after, it is closed if and
    only if its live receipts, this one among them, now cover every line.
  */
  lemma ClosedOnceReceived(d: Docs, id: nat, f: Draft)
    requires WellFormed(d) && ClaimOk(d, id) && ClosingStatus(d.txns[id].kind).OrderClosed?
    requires var d1 := Claim(d, id, Some(f.lines)); WellFormed(d1) && CreateOk(d1, f)
    requires f.source == Some(id) && !IsPayment(f.kind)
    ensures var d' := Create(Claim(d, id, Some(f.lines)), f);
            id < |d'.txns| && (d'.txns[id].status.OrderClosed? <==> AllReceived(d', id))
  {
    var d1 := Claim(d, id, Some(f.lines));
    var d' := Create(d1, f);
    CreateKeepsReceipts(d1, f);
    assert SameReceipts(Inserted(d1, f).txns[id], d'.txns[id]);
    assert d'.txns[id].lines == d.txns[id].lines;
    forall k | 0 <= k < |d.txns[id].lines|
      ensures LineReceived(d', id, d.txns[id].lines[k]) <==> LineCovered(d, id, f.lines, d.txns[id].lines[k])
    {
      var l := d.txns[id].lines[k];
      if l.item.Some? {
        ReceiptAdds(d1, f, id, l.item.value);
        ClaimKeepsReceipts(d, id, Some(f.lines), l.item.value);
      }
    }
    assert Covered(d, id, f.lines) <==> AllReceived(d', id);
  }
}
