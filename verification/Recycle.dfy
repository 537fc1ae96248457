/** Deleting a document is the exact inverse of posting it; restoring it posts it again. */
module Recycle {
  import opened Wrappers
  import opened Sums
  import opened Books
  import opened Steps
  import opened Laws
  import opened PostingLaws

  // ----- Books in which a document was never posted -----

  function Blank(t: Txn): Txn { t.(net := 0, posted := false) }

  function BlankPays(pays: seq<Pay>, id: nat): seq<Pay> {
    seq(|pays|, k requires 0 <= k < |pays| => if pays[k].txn == id then pays[k].(net := 0, slip := NoSlip) else pays[k])
  }

  function BlankAllocs(allocs: seq<Alloc>, id: nat): seq<Alloc> {
    seq(|allocs|, k requires 0 <= k < |allocs| => if allocs[k].pay == id then allocs[k].(net := 0) else allocs[k])
  }

  /** The same rows with nothing of document id ever having moved. */
  function Without(d: Docs, id: nat): Docs
    requires id < |d.txns|
  {
    d.(txns := d.txns[id := Blank(d.txns[id])], pays := BlankPays(d.pays, id), allocs := BlankAllocs(d.allocs, id))
  }

  /** A payment row as posting leaves it: its money moved the account it names, or moved nothing. */
  predicate AsPosted(accounts: seq<Account>, branch: Option<nat>, r: Pay) {
    r.tender.Cheque?
    || (r.net == 1 && r.account.Some?)
    || (r.net == 0 && (r.account.None? || Resolve(accounts, branch, r.account, r.tender).None?))
  }

  /** The document's effects are in the books exactly once. */
  ghost predicate PostedOnce(d: Docs, id: nat) {
    && WellFormed(d) && id < |d.txns|
    && d.txns[id].net == 1 && d.txns[id].posted && !d.txns[id].status.Held?
    && (forall k {:trigger d.pays[k]} :: 0 <= k < |d.pays| && d.pays[k].txn == id
          ==> AsPosted(d.accounts, d.txns[id].branch, d.pays[k]))
  }

  /** Taking the payment back touches an account exactly if making it did: the account it named
      is of the document's own branch, or no account was found then and none is found now. */
  predicate ComesBack(accounts: seq<Account>, branch: Option<nat>, r: Pay) {
    r.tender.Cheque? || r.net == (if Resolve(accounts, branch, r.account, r.tender).Some? then 1 else 0)
  }

  lemma DeleteIsNetStep(d: Docs, id: nat)
    requires WellFormed(d) && id < |d.txns| && !d.txns[id].status.Held?
    ensures NetStep(d, Delete(d, id), id, Renetted(d, id, -1), -1)
  {
    UnpostTurns(d, id);
    TurnIsNetStep(d, Unpost(d, id), id, -1);
  }

  lemma BlankMoves(d: Docs, id: nat, i: nat, w: nat)
    requires id < |d.txns|
    ensures StockDue(Without(d, id), i) == StockDue(d, i) - Weigh(d.txns[id].net, Moves(d.items, d.txns[id], i))
    ensures LevelDue(Without(d, id), i, w) == LevelDue(d, i, w) - TxnLevel(d.items, d.warehouses, i, w)(d.txns[id])
  {
    SumUpdate(d.txns, id, Blank(d.txns[id]), TxnStock(d.items, i));
    SumUpdate(d.txns, id, Blank(d.txns[id]), TxnLevel(d.items, d.warehouses, i, w));
  }

  /** Deleting leaves every stock total, stock level and bill as if the document had never been posted. */
  lemma DeleteErasesGoods(d: Docs, id: nat)
    requires PostedOnce(d, id)
    ensures forall i: nat :: StockDue(Delete(d, id), i) == StockDue(Without(d, id), i)
    ensures forall i: nat, w: nat :: LevelDue(Delete(d, id), i, w) == LevelDue(Without(d, id), i, w)
    ensures forall x: nat :: x < |d.txns| ==> PaidDue(Delete(d, id), x) == PaidDue(Without(d, id), x)
  {
    var t := d.txns[id];
    var d' := Delete(d, id);
    DeleteIsNetStep(d, id);
    assert HomeOk(d, t);
    assert d'.warehouses == d.warehouses;
    forall i: nat ensures StockDue(d', i) == StockDue(Without(d, id), i) {
      NetChangeStock(d, d', id, Renetted(d, id, -1), -1, i);
      BlankMoves(d, id, i, 0);
    }
    forall i: nat, w: nat ensures LevelDue(d', i, w) == LevelDue(Without(d, id), i, w) {
      NetChangeLevel(d, d', id, Renetted(d, id, -1), -1, i, w);
      BlankMoves(d, id, i, w);
    }
    forall x: nat | x < |d.txns| ensures PaidDue(d', x) == PaidDue(Without(d, id), x) {
      var blank := BlankAllocs(d.allocs, id);
      forall k | 0 <= k < |d.allocs|
        ensures AllocPaid(x)(d'.allocs[k]) == AllocPaid(x)(blank[k])
      {
        assert AllocOk(d, d.allocs[k]);
      }
      SumPointwise(d'.allocs, blank, AllocPaid(x), AllocPaid(x));
    }
  }

  /** It does the same for every party balance exactly when the amount counted as paid at posting
      is the amount of the stored payment rows (or the document does not touch a party by it). */
  lemma DeleteErasesParty(d: Docs, id: nat)
    requires PostedOnce(d, id)
    ensures (forall p: nat :: p < |d.parties| ==> PartyDue(Delete(d, id), p) == PartyDue(Without(d, id), p))
            <==> d.txns[id].party.None? || d.txns[id].kind.P2PTransfer?
                 || Delta(d.txns[id], d.txns[id].base) == Delta(d.txns[id], d.txns[id].settled)
  {
    var t := d.txns[id];
    forall p: nat | p < |d.parties|
      ensures PartyDue(Delete(d, id), p)
              == PartyDue(Without(d, id), p) + (if !t.kind.P2PTransfer? && t.party == Some(p) then Skew(t) else 0.0)
    {
      PartyLeft(d, id, p);
    }
    assert TxnOk(d, id);
    if t.party.Some? && !t.kind.P2PTransfer? && Skew(t) != 0.0 {
      var p := t.party.value;
      assert PartyDue(Delete(d, id), p) != PartyDue(Without(d, id), p);
    }
  }

  lemma PartyAfterwards(d: Docs, id: nat, p: nat)
    requires PostedOnce(d, id)
    ensures var t := d.txns[id];
            TxnParty(p)(Renetted(d, id, -1)) == (if !t.kind.P2PTransfer? && t.party == Some(p) then Skew(t) else 0.0)
    ensures TxnParty(p)(Blank(d.txns[id])) == 0.0
  {
  }

  lemma PartyLeft(d: Docs, id: nat, p: nat)
    requires PostedOnce(d, id) && p < |d.parties|
    ensures var t := d.txns[id];
            PartyDue(Delete(d, id), p)
            == PartyDue(Without(d, id), p) + (if !t.kind.P2PTransfer? && t.party == Some(p) then Skew(t) else 0.0)
  {
    hide TxnParty, Skew;
    var t := d.txns[id];
    DeleteIsNetStep(d, id);
    PartyAfterwards(d, id, p);
    NetChangeParty(d, Delete(d, id), id, Renetted(d, id, -1), p, TxnParty(p)(Renetted(d, id, -1)) - TxnParty(p)(t));
    SumUpdate(d.txns, id, Blank(t), TxnParty(p));
  }

  // ----- Money -----

  /** What is left of a payment row's effect on an account after deleting its document. */
  function Residue(accounts: seq<Account>, branch: Option<nat>, id: nat, a: nat): Pay -> real {
    (r: Pay) => if r.txn == id then PayMoney(accounts, a)(UndoPay(accounts, branch, r)) else 0.0
  }

  lemma ResidueIsDifference(d: Docs, id: nat, a: nat)
    requires WellFormed(d) && id < |d.txns| && a < |d.accounts|
    ensures AccountDue(Delete(d, id), a)
            == AccountDue(d, a) + Sum(Delete(d, id).pays, PayMoney(d.accounts, a))
               - Sum(d.pays, PayMoney(d.accounts, a))
    ensures !d.txns[id].status.Held? ==>
              AccountDue(Delete(d, id), a)
              == AccountDue(Without(d, id), a) + Sum(d.pays, Residue(d.accounts, d.txns[id].branch, id, a))
  {
    if !d.txns[id].status.Held? {
      var blank := BlankPays(d.pays, id);
      var f, g := PayMoney(d.accounts, a), Residue(d.accounts, d.txns[id].branch, id, a);
      var undone := Delete(d, id).pays;
      assert undone == Undone(d, id);
      forall k | 0 <= k < |d.pays| ensures f(undone[k]) == f(blank[k]) + g(d.pays[k]) { }
      SumPlus(undone, blank, d.pays, f, f, g);
    }
  }

  /** One row: nothing is left of it at any account exactly if its payment comes back. */
  lemma RowResidue(d: Docs, id: nat, k: nat, a: nat)
    requires PostedOnce(d, id) && k < |d.pays| && d.pays[k].txn == id
    ensures var r, branch := d.pays[k], d.txns[id].branch;
            Residue(d.accounts, branch, id, a)(r)
            == if ComesBack(d.accounts, branch, r) || Target(d.accounts, r) != Some(a) then 0.0
               else if branch.Some? then Signed(r) else -Signed(r)
    ensures Signed(d.pays[k]) == if Inbound(d.txns[id].kind) then d.pays[k].amount else -d.pays[k].amount
    ensures d.pays[k].amount > 0.0
    ensures !ComesBack(d.accounts, d.txns[id].branch, d.pays[k]) ==>
              Target(d.accounts, d.pays[k]).Some? && Target(d.accounts, d.pays[k]).value < |d.accounts|
  {
    var r := d.pays[k];
    assert PayOk(d, r) && PayRefs(d.accounts, r) && AsPosted(d.accounts, d.txns[id].branch, r);
    assert Weigh(1, Signed(r)) == Signed(r) && Weigh(-1, Signed(r)) == -Signed(r);
    var branch := d.txns[id].branch;
    var gone := UndoPay(d.accounts, branch, r);
    assert Residue(d.accounts, branch, id, a)(r) == PayMoney(d.accounts, a)(gone);
    if !r.tender.Cheque? {
      assert Target(d.accounts, gone) == Target(d.accounts, r);
      assert ComesBack(d.accounts, branch, r) ==> gone.net == 0;
      if r.account.Some? {
        assert !ComesBack(d.accounts, branch, r) ==> gone == r && r.net == 1 && branch.Some?;
      } else {
        assert !ComesBack(d.accounts, branch, r)
               ==> gone.net == -1 && Resolve(d.accounts, None, None, r.tender) == Target(d.accounts, r);
      }
    }
  }

  /** Every account is as if the document had never been posted exactly when every one of its
      payments comes back.  In a branch's document that means each account it credited is an
      account of that branch. */
  lemma DeleteErasesMoney(d: Docs, id: nat)
    requires PostedOnce(d, id)
    ensures (forall a: nat :: a < |d.accounts| ==> AccountDue(Delete(d, id), a) == AccountDue(Without(d, id), a))
            <==> forall k {:trigger d.pays[k]} :: 0 <= k < |d.pays| && d.pays[k].txn == id
                   ==> ComesBack(d.accounts, d.txns[id].branch, d.pays[k])
  {
    var branch := d.txns[id].branch;
    if forall k {:trigger d.pays[k]} :: 0 <= k < |d.pays| && d.pays[k].txn == id
         ==> ComesBack(d.accounts, branch, d.pays[k]) {
      forall a: nat | a < |d.accounts| ensures AccountDue(Delete(d, id), a) == AccountDue(Without(d, id), a) {
        ResidueIsDifference(d, id, a);
        forall k | 0 <= k < |d.pays| ensures Residue(d.accounts, branch, id, a)(d.pays[k]) == 0.0 {
          if d.pays[k].txn == id { RowResidue(d, id, k, a); }
        }
        SumZero(d.pays, Residue(d.accounts, branch, id, a));
      }
    } else {
      var k :| 0 <= k < |d.pays| && d.pays[k].txn == id && !ComesBack(d.accounts, branch, d.pays[k]);
      RowResidue(d, id, k, 0);
      var a := Target(d.accounts, d.pays[k]).value;
      ResidueIsDifference(d, id, a);
      ResidueSticks(d, id, k, a);
    }
  }

  /** What is left of several rows cannot cancel out: it all has the same sign. */
  lemma ResidueSticks(d: Docs, id: nat, k: nat, a: nat)
    requires PostedOnce(d, id) && k < |d.pays| && d.pays[k].txn == id
    requires !ComesBack(d.accounts, d.txns[id].branch, d.pays[k]) && Target(d.accounts, d.pays[k]) == Some(a)
    ensures Sum(d.pays, Residue(d.accounts, d.txns[id].branch, id, a)) != 0.0
  {
    var branch := d.txns[id].branch;
    var f := Residue(d.accounts, branch, id, a);
    var up := Inbound(d.txns[id].kind) == branch.Some?;
    var g := Oriented(f, up);
    forall j | 0 <= j < |d.pays| ensures g(d.pays[j]) >= 0.0 {
      if d.pays[j].txn == id { RowResidue(d, id, j, a); }
    }
    RowResidue(d, id, k, a);
    SumAtLeast(d.pays, k, g);
    OrientedSum(d.pays, f, up);
  }

  function Oriented(f: Pay -> real, up: bool): Pay -> real { (r: Pay) => if up then f(r) else -f(r) }

  lemma {:induction false} OrientedSum(rs: seq<Pay>, f: Pay -> real, up: bool)
    ensures Sum(rs, Oriented(f, up)) == if up then Sum(rs, f) else -Sum(rs, f)
  {
    if |rs| > 0 { OrientedSum(rs[..|rs| - 1], f, up); }
  }

  // ----- When the conditions hold -----

  /** Counted as paid and stored in rows differ exactly by negative payments, which only charging
      a held bill lets through. */
  lemma {:induction false} NegativePaymentsSkew(ps: seq<PayIn>)
    ensures Sum(ps, NonDebt()) <= Sum(ps, RowPart())
    ensures Sum(ps, NonDebt()) == Sum(ps, RowPart())
            <==> forall k :: 0 <= k < |ps| ==> ps[k].tender.Debt? || ps[k].amount >= 0.0
  {
    if |ps| > 0 {
      var n := |ps| - 1;
      NegativePaymentsSkew(ps[..n]);
      assert ps == ps[..n] + [ps[n]];
      if forall k :: 0 <= k < n ==> ps[..n][k].tender.Debt? || ps[..n][k].amount >= 0.0 {
        forall k | 0 <= k < n ensures ps[k].tender.Debt? || ps[k].amount >= 0.0 { assert ps[..n][k] == ps[k]; }
      } else {
        var k :| 0 <= k < n && !(ps[..n][k].tender.Debt? || ps[..n][k].amount >= 0.0);
        assert ps[k] == ps[..n][k];
      }
    }
  }

  /** A freshly written payment row comes back on deletion exactly when: the account it named
      belongs to the document's branch, or it moved nothing and still has nothing to move. */
  lemma NewRowComesBack(accounts: seq<Account>, branch: Option<nat>, r: Pay)
    requires !r.tender.Cheque? && AsPosted(accounts, branch, r) && (r.account.None? ==> branch.None?)
    requires r.account.Some? ==> r.account.value < |accounts|
    ensures ComesBack(accounts, branch, r) <==>
            if r.net == 1 then branch.None? || accounts[r.account.value].branch == branch
            else r.account.Some? || FirstTill(accounts, TillOf(r.tender), None).None?
  {
  }
}
