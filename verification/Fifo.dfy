/** Spreading a receipt over a party's open bills, oldest first. */
module Fifo {
  import opened Wrappers
  import opened Sums
  import opened Books
  import opened Steps
  import opened Laws

  function Min(a: real, b: real): real { if a <= b then a else b }

  function Amount(): AllocIn -> real { (a: AllocIn) => a.amount }

  function OwedOf(owed: seq<real>): nat -> real {
    (x: nat) => if x < |owed| then owed[x] else 0.0
  }

  /** A live bill of the right kind and party that still shows a positive balance. */
  predicate Eligible(d: Docs, owed: seq<real>, kind: Kind, party: nat, x: nat) {
    && x < |d.txns| && x < |owed|
    && d.txns[x].kind == kind && d.txns[x].party == Some(party) && !d.txns[x].deleted
    && (d.txns[x].status.Open? || d.txns[x].status.Partial?)
    && owed[x] > 0.0
  }

  /** The eligible bills, each once, in order of date. */
  ghost predicate Listing(d: Docs, owed: seq<real>, kind: Kind, party: nat, bills: seq<nat>) {
    && (forall k :: 0 <= k < |bills| ==> Eligible(d, owed, kind, party, bills[k]))
    && (forall x: nat :: Eligible(d, owed, kind, party, x) ==> x in bills)
    && (forall j, k :: 0 <= j < k < |bills| ==> bills[j] != bills[k])
  }

  ghost predicate PositiveBills(owed: seq<real>, bills: seq<nat>) {
    forall k :: 0 <= k < |bills| ==> bills[k] < |owed| && owed[bills[k]] > 0.0
  }

  /** Oldest first, every bill before the last one cleared in full, no bill given more than it
      owes, and all of the money or all of the bills used up. */
  ghost predicate IsFifo(owed: seq<real>, bills: seq<nat>, amount: real, als: seq<AllocIn>) {
    && |als| <= |bills|
    && (forall k :: 0 <= k < |als| ==> bills[k] < |owed| && Takes(owed, bills[k], als[k]))
    && (forall k :: 0 <= k < |als| - 1 ==> als[k].amount == owed[bills[k]])
    && Sum(als, Amount()) == Min(if amount > 0.0 then amount else 0.0, Sum(bills, OwedOf(owed)))
  }

  predicate Takes(owed: seq<real>, x: nat, a: AllocIn)
    requires x < |owed|
  {
    a.against == x && a.discount == 0.0 && 0.0 < a.amount <= owed[x]
  }

  lemma BillsAhead(owed: seq<real>, bills: seq<nat>, k: nat)
    requires PositiveBills(owed, bills) && k < |bills|
    ensures Sum(bills[..k + 1], OwedOf(owed)) == Sum(bills[..k], OwedOf(owed)) + owed[bills[k]]
    ensures Sum(bills[..k + 1], OwedOf(owed)) <= Sum(bills, OwedOf(owed))
  {
    assert bills[..k + 1] == bills[..k] + [bills[k]];
    SumAppend(bills[..k], bills[k], OwedOf(owed));
    SumPrefix(bills, k + 1, OwedOf(owed));
  }

  method AutoAllocate(owed: seq<real>, bills: seq<nat>, amount: real) returns (als: seq<AllocIn>)
    requires PositiveBills(owed, bills)
    ensures IsFifo(owed, bills, amount, als)
  {
    als := [];
    var remaining := amount;
    var k := 0;
    forall j | 0 <= j < |bills| ensures OwedOf(owed)(bills[j]) >= 0.0 { }
    SumPrefix(bills, 0, OwedOf(owed));
    while k < |bills| && remaining > 0.0
      invariant 0 <= k <= |bills| && |als| == k
      invariant forall j :: 0 <= j < k ==> Takes(owed, bills[j], als[j])
      invariant forall j :: 0 <= j < k - 1 ==> als[j].amount == owed[bills[j]]
      invariant k > 0 && remaining > 0.0 ==> als[k - 1].amount == owed[bills[k - 1]]
      invariant Sum(als, Amount()) == amount - remaining
      invariant amount > 0.0 ==> remaining >= 0.0
      invariant amount <= 0.0 ==> k == 0 && remaining == amount
      invariant remaining > 0.0 ==> Sum(als, Amount()) == Sum(bills[..k], OwedOf(owed))
      invariant Sum(als, Amount()) <= Sum(bills, OwedOf(owed))
    {
      BillsAhead(owed, bills, k);
      var part := Min(remaining, owed[bills[k]]);
      SumAppend(als, AllocIn(bills[k], part, 0.0), Amount());
      als := als + [AllocIn(bills[k], part, 0.0)];
      remaining := remaining - part;
      k := k + 1;
    }
    assert bills[..|bills|] == bills;
  }

  /** There is only one way to do it. */
  lemma {:induction false} FifoUnique(owed: seq<real>, bills: seq<nat>, amount: real, a: seq<AllocIn>, b: seq<AllocIn>)
    requires PositiveBills(owed, bills) && IsFifo(owed, bills, amount, a) && IsFifo(owed, bills, amount, b)
    ensures a == b
  {
    if |a| <= |b| { FifoPrefix(owed, bills, amount, a, b); } else { FifoPrefix(owed, bills, amount, b, a); }
  }

  lemma CommonPrefix(a: seq<AllocIn>, b: seq<AllocIn>, n: nat)
    requires n <= |a| && n <= |b| && forall k :: 0 <= k < n ==> a[k].amount == b[k].amount
    ensures Sum(a[..n], Amount()) == Sum(b[..n], Amount())
  {
    SumPointwise(a[..n], b[..n], Amount(), Amount());
  }

  lemma CutShort(als: seq<AllocIn>, n: nat)
    requires n < |als| && forall k :: 0 <= k < |als| ==> als[k].amount > 0.0
    ensures Sum(als[..n], Amount()) < Sum(als, Amount())
  {
    SumPrefix(als, n + 1, Amount());
    assert als[..n + 1] == als[..n] + [als[n]];
    SumAppend(als[..n], als[n], Amount());
  }

  lemma FifoPrefix(owed: seq<real>, bills: seq<nat>, amount: real, a: seq<AllocIn>, b: seq<AllocIn>)
    requires PositiveBills(owed, bills) && IsFifo(owed, bills, amount, a) && IsFifo(owed, bills, amount, b)
             && |a| <= |b|
    ensures a == b
  {
    var n := |a|;
    assert forall k :: 0 <= k < |b| ==> Takes(owed, bills[k], b[k]);
    if n == 0 {
      if |b| > 0 { SumAtLeast(b, 0, Amount()); assert false; }
    } else {
      assert Takes(owed, bills[n - 1], a[n - 1]);
      CommonPrefix(a, b, n - 1);
      assert a[..n] == a;
      SumPrefix(b, n, Amount());
      assert b[..n][..n - 1] == b[..n - 1];
      if n < |b| {
        CutShort(b, n);
        assert false;
      }
      forall k | 0 <= k < n ensures a[k] == b[k] { assert Takes(owed, bills[k], a[k]) && Takes(owed, bills[k], b[k]); }
    }
  }

  // ----- Applying it -----

  function GivenTo(x: nat): AllocIn -> real { (a: AllocIn) => if a.against == x then a.amount else 0.0 }

  lemma {:induction false} NewRowsPay(id: nat, als: seq<AllocIn>, x: nat)
    requires forall k :: 0 <= k < |als| ==> als[k].discount == 0.0
    ensures Sum(AllocRows(id, als), AllocPaid(x)) == Sum(als, GivenTo(x))
  {
    forall k | 0 <= k < |als| ensures AllocPaid(x)(AllocRows(id, als)[k]) == GivenTo(x)(als[k]) {
      assert Weigh(1, als[k].amount) == als[k].amount;
    }
    SumPointwise(AllocRows(id, als), als, AllocPaid(x), GivenTo(x));
  }

  lemma {:induction false} GivenOnce(bills: seq<nat>, als: seq<AllocIn>, x: nat)
    requires |als| <= |bills| && forall k :: 0 <= k < |als| ==> als[k].against == bills[k]
    requires forall j, k :: 0 <= j < k < |bills| ==> bills[j] != bills[k]
    ensures forall k :: 0 <= k < |als| && bills[k] == x ==> Sum(als, GivenTo(x)) == als[k].amount
    ensures (forall k :: 0 <= k < |als| ==> bills[k] != x) ==> Sum(als, GivenTo(x)) == 0.0
  {
    if |als| > 0 { GivenOnce(bills, als[..|als| - 1], x); }
  }

  /** Exactly the bills allocated to are given a new status, the one their new paid amount calls for. */
  ghost predicate Restates(d: Docs, d': Docs, als: seq<AllocIn>, x: nat)
    requires x < |d.txns| == |d'.txns|
  {
    d'.txns[x] == if TargetsIn(als)(x) then d.txns[x].(status := BillStatus(d.txns[x].total, PaidDue(d', x)))
                  else d.txns[x]
  }

  lemma {:induction false} AllocatedPays(d: Docs, id: nat, als: seq<AllocIn>, x: nat)
    requires x < |d.txns| && forall k :: 0 <= k < |als| ==> als[k].discount == 0.0
    ensures PaidDue(Allocated(d, id, als), x) == PaidDue(d, x) + Sum(als, GivenTo(x))
    ensures Restates(d, Allocated(d, id, als), als, x)
  {
    var d1 := d.(allocs := d.allocs + AllocRows(id, als));
    SumConcat(d.allocs, AllocRows(id, als), AllocPaid(x));
    NewRowsPay(id, als, x);
    PaidDueLooksAt(d1, Allocated(d, id, als), x);
  }

  /** A bill the allocation reaches. */
  lemma FifoPays(d: Docs, id: nat, kind: Kind, party: nat, owed: seq<real>, bills: seq<nat>, amount: real,
                 als: seq<AllocIn>, k: nat)
    requires Listing(d, owed, kind, party, bills) && IsFifo(owed, bills, amount, als) && k < |als|
    requires |owed| == |d.txns| && owed[bills[k]] == d.txns[bills[k]].total - PaidDue(d, bills[k])
    ensures var d', x := Allocated(d, id, als), bills[k];
            && d'.txns[x].total - PaidDue(d', x) == owed[x] - als[k].amount >= 0.0
            && d'.txns[x].status == BillStatus(d.txns[x].total, PaidDue(d', x))
  {
    hide PaidDue, Allocated, Sum;
    assert Takes(owed, bills[k], als[k]) && Eligible(d, owed, kind, party, bills[k]);
    assert forall j :: 0 <= j < |als| ==> Takes(owed, bills[j], als[j]);
    AllocatedPays(d, id, als, bills[k]);
    GivenOnce(bills, als, bills[k]);
    assert TargetsIn(als)(bills[k]);
  }

  /** A bill it does not reach. */
  lemma FifoSpares(d: Docs, id: nat, owed: seq<real>, bills: seq<nat>, amount: real, als: seq<AllocIn>, x: nat)
    requires IsFifo(owed, bills, amount, als) && (forall j, k :: 0 <= j < k < |bills| ==> bills[j] != bills[k])
    requires x < |d.txns| && x !in bills[..|als|]
    ensures var d' := Allocated(d, id, als); d'.txns[x] == d.txns[x] && PaidDue(d', x) == PaidDue(d, x)
  {
    hide PaidDue, Allocated, Sum;
    assert forall j :: 0 <= j < |als| ==> Takes(owed, bills[j], als[j]) && bills[..|als|][j] == bills[j];
    AllocatedPays(d, id, als, x);
    GivenOnce(bills, als, x);
  }

  /**
    Applying a first-in-first-out allocation: each bill it reaches owes what it owed less its
    share, never less than nothing, and shows the status that goes with it; every bill before the
    last is paid off; no other bill changes.
  */
  lemma FifoSettles(d: Docs, id: nat, kind: Kind, party: nat, owed: seq<real>, bills: seq<nat>, amount: real,
                    als: seq<AllocIn>)
    requires Listing(d, owed, kind, party, bills) && IsFifo(owed, bills, amount, als)
    requires |owed| == |d.txns| && forall x: nat :: x < |d.txns| ==> owed[x] == d.txns[x].total - PaidDue(d, x)
    ensures var d' := Allocated(d, id, als);
            && |d'.txns| == |d.txns|
            && (forall k :: 0 <= k < |als| ==>
                  var x := bills[k];
                  && d'.txns[x].total - PaidDue(d', x) == owed[x] - als[k].amount >= 0.0
                  && d'.txns[x].status == BillStatus(d.txns[x].total, PaidDue(d', x))
                  && (d'.txns[x].status.Paid? <==> als[k].amount == owed[x])
                  && (k < |als| - 1 ==> d'.txns[x].status.Paid?))
            && (forall x: nat :: x < |d.txns| && x !in bills[..|als|]
                  ==> d'.txns[x] == d.txns[x] && PaidDue(d', x) == PaidDue(d, x))
  {
    hide PaidDue, Allocated, Sum, Listing;
    var d' := Allocated(d, id, als);
    assert |d'.txns| == |d.txns| by { AllocatedLength(d, id, als); }
    ListedApart(d, owed, kind, party, bills);
    forall k | 0 <= k < |als|
      ensures var x := bills[k];
              && d'.txns[x].total == d.txns[x].total
              && d'.txns[x].total - PaidDue(d', x) == owed[x] - als[k].amount >= 0.0
              && d'.txns[x].status == BillStatus(d.txns[x].total, PaidDue(d', x))
    {
      FifoPays(d, id, kind, party, owed, bills, amount, als, k);
      AllocatedLength(d, id, als);
    }
    forall x: nat | x < |d.txns| && x !in bills[..|als|]
      ensures d'.txns[x] == d.txns[x] && PaidDue(d', x) == PaidDue(d, x)
    {
      FifoSpares(d, id, owed, bills, amount, als, x);
    }
  }

  lemma AllocatedLength(d: Docs, id: nat, als: seq<AllocIn>)
    ensures |Allocated(d, id, als).txns| == |d.txns|
    ensures forall x :: 0 <= x < |d.txns| ==> Allocated(d, id, als).txns[x].total == d.txns[x].total
  {
  }

  lemma ListedApart(d: Docs, owed: seq<real>, kind: Kind, party: nat, bills: seq<nat>)
    requires Listing(d, owed, kind, party, bills)
    ensures forall j, k :: 0 <= j < k < |bills| ==> bills[j] != bills[k]
    ensures PositiveBills(owed, bills)
  {
    forall k | 0 <= k < |bills| ensures bills[k] < |owed| && owed[bills[k]] > 0.0 {
      assert Eligible(d, owed, kind, party, bills[k]);
    }
  }

  /** A receipt as it is handed to the engine: cash, unless it is said how it was paid. */
  function Receipt(branch: Option<nat>, party: nat, amount: real, ps: seq<PayIn>, als: seq<AllocIn>): Draft {
    Draft(PaymentIn, branch, Some(party), None, [], amount,
          if |ps| > 0 then ps else [PayIn(Cash, None, amount)], als, None, None)
  }

  lemma FifoAllocsOk(d: Docs, owed: seq<real>, party: nat, bills: seq<nat>, amount: real, als: seq<AllocIn>)
    requires Listing(d, owed, SaleInvoice, party, bills) && IsFifo(owed, bills, amount, als)
    ensures AllocsInOk(d, PaymentIn, Some(party), als)
  {
    forall k | 0 <= k < |als| ensures AllocInOk(d, PaymentIn, Some(party), als[k]) {
      assert Takes(owed, bills[k], als[k]) && Eligible(d, owed, SaleInvoice, party, bills[k]);
    }
  }

  /** Said to be paid in no particular way it is one payment in cash of the whole amount. */
  lemma DefaultCash(accounts: seq<Account>, amount: real)
    requires amount > 0.0
    ensures var ps := [PayIn(Cash, None, amount)]; TendersOk(accounts, Kept(ps)) && Sum(Kept(ps), AnyTender()) == amount
  {
    var ps := [PayIn(Cash, None, amount)];
    assert ps[..0] == [] && Kept(ps) == ps;
  }

  /** A receipt with good allocations is accepted exactly when its payments add up to it and go to
      accounts there are. */
  lemma ReceiptAccepted(d: Docs, branch: Option<nat>, party: nat, amount: real, ps: seq<PayIn>, als: seq<AllocIn>)
    requires AllocsInOk(d, PaymentIn, Some(party), als) && party < |d.parties| && amount > 0.0
    ensures CreateOk(d, Receipt(branch, party, amount, ps, als))
            <==> |ps| == 0 || (Sum(Kept(ps), AnyTender()) == amount && TendersOk(d.accounts, Kept(ps)))
  {
    hide Kept, TendersOk, Sum;
    var f := Receipt(branch, party, amount, ps, als);
    var d1 := Inserted(d, f);
    forall k | 0 <= k < |als| ensures AllocInOk(d1, PaymentIn, Some(party), als[k]) {
      assert AllocInOk(d, PaymentIn, Some(party), als[k]);
    }
    DefaultCash(d.accounts, amount);
  }

  /**
    A receipt of a known party allocated this way is never refused on account of its allocations: it
    is accepted exactly when its payments add up to it and go to accounts there are; so always, when it
    is not said how it was paid.  And no more is allocated than was received.
  */
  lemma FifoIsAccepted(d: Docs, owed: seq<real>, branch: Option<nat>, party: nat, bills: seq<nat>, amount: real,
                       ps: seq<PayIn>, als: seq<AllocIn>)
    requires Listing(d, owed, SaleInvoice, party, bills) && IsFifo(owed, bills, amount, als)
    requires party < |d.parties| && amount > 0.0
    ensures CreateOk(d, Receipt(branch, party, amount, ps, als))
            <==> |ps| == 0 || (Sum(Kept(ps), AnyTender()) == amount && TendersOk(d.accounts, Kept(ps)))
    ensures Sum(als, Amount()) <= amount
  {
    hide CreateOk, Listing;
    FifoAllocsOk(d, owed, party, bills, amount, als);
    ReceiptAccepted(d, branch, party, amount, ps, als);
  }

  method TotalOf(als: seq<AllocIn>) returns (total: real)
    ensures total == Sum(als, Amount())
  {
    total := 0.0;
    for k := 0 to |als|
      invariant total == Sum(als[..k], Amount())
    {
      assert als[..k + 1] == als[..k] + [als[k]];
      SumAppend(als[..k], als[k], Amount());
      total := total + als[k].amount;
    }
    assert als[..|als|] == als;
  }

  /**
    What is asked for when a receipt is taken: refused without a positive amount, or when bills were
    chosen for another total; spread oldest first when none were chosen, unless that was turned off.
  */
  method CreatePaymentIn(d: Docs, owed: seq<real>, bills: seq<nat>, branch: Option<nat>, party: nat, amount: real,
                         ps: seq<PayIn>, chosen: seq<AllocIn>, auto: bool) returns (f: Option<Draft>)
    requires Listing(d, owed, SaleInvoice, party, bills)
    ensures f.None? <==> amount <= 0.0 || (|chosen| > 0 && Sum(chosen, Amount()) != amount)
    ensures f.Some? ==> f.value == Receipt(branch, party, amount, ps, f.value.allocations)
    ensures f.Some? && |chosen| > 0 ==> f.value.allocations == chosen
    ensures f.Some? && |chosen| == 0 && !auto ==> f.value.allocations == []
    ensures f.Some? && |chosen| == 0 && auto ==> IsFifo(owed, bills, amount, f.value.allocations)
    ensures f.Some? && |chosen| == 0 && party < |d.parties| && |ps| == 0 ==> CreateOk(d, f.value)
  {
    hide CreateOk, IsFifo;
    if amount <= 0.0 { return None; }
    var als := chosen;
    if |chosen| > 0 {
      var total := TotalOf(chosen);
      if total != amount { return None; }
    } else if auto {
      ListedApart(d, owed, SaleInvoice, party, bills);
      als := AutoAllocate(owed, bills, amount);
      if party < |d.parties| { FifoIsAccepted(d, owed, branch, party, bills, amount, ps, als); }
    } else if party < |d.parties| {
      ReceiptAccepted(d, branch, party, amount, ps, als);
    }
    f := Some(Receipt(branch, party, amount, ps, als));
  }
}
