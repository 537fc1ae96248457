/** What the data check reports of books that are right, and what its fix does to them. */
module DataCheck {
  import opened Wrappers
  import opened Sums
  import opened Books
  import opened Laws
  import opened PostingLaws
  import opened Agreement
  import opened Reconciliation

  // ----- Parties -----

  /** A party's ledger lines that the check does not look at. */
  function EntryOut(c: Scope, p: nat): Entry -> real {
    (e: Entry) => if e.party == p && !InScope(c, e.branch) then e.amount else 0.0
  }

  lemma EntriesSplit(ledger: seq<Entry>, c: Scope, p: nat)
    ensures Sum(ledger, EntryAmount(p)) == Sum(ledger, EntryIn(c, p)) + Sum(ledger, EntryOut(c, p))
    ensures c.shop.None? ==> Sum(ledger, EntryOut(c, p)) == 0.0
  {
    SumPlus(ledger, ledger, ledger, EntryAmount(p), EntryIn(c, p), EntryOut(c, p));
    if c.shop.None? { SumZero(ledger, EntryOut(c, p)); }
  }

  /** A right balance is reported exactly when the party is the shop's and what it did elsewhere comes
      to more than a paisa. */
  lemma PartyDriftsExactlyWhen(dues: seq<real>, ledger: seq<Entry>, c: Scope, p: nat)
    requires LedgerAgrees(dues, ledger) && p < |dues|
    ensures PartyDrifts(ledger, dues, c, p)
            <==> InScope(c, ShopOf(c.parties, p)) && Gap(Sum(ledger, EntryOut(c, p)), 0.0) > 0.01
  {
    EntriesSplit(ledger, c, p);
  }

  /** Fixing one shop's parties makes exactly the reported ones wrong: a check of everything then
      reports these and no others. */
  lemma FixSpoilsExactly(dues: seq<real>, ledger: seq<Entry>, c: Scope, everything: Scope, fixed: seq<real>)
    requires LedgerAgrees(dues, ledger) && everything.shop.None?
    requires |fixed| == |dues| && forall p: nat :: p < |dues| ==> fixed[p] == PartyFixed(ledger, dues, c, p)
    ensures forall p: nat :: p < |dues|
              ==> (PartyDrifts(ledger, fixed, everything, p) <==> PartyDrifts(ledger, dues, c, p))
  {
    forall p: nat | p < |dues|
      ensures PartyDrifts(ledger, fixed, everything, p) <==> PartyDrifts(ledger, dues, c, p)
    {
      EntriesSplit(ledger, c, p);
      EntriesSplit(ledger, everything, p);
    }
  }

  /** A transfer between parties is written to the ledger without a branch, so no shop's check sees it:
      two parties of the shop with nothing elsewhere are reported from then on if it is more than a paisa. */
  lemma TransfersLookLikeDrift(t: Txn, delta: real, dues: seq<real>, ledger: seq<Entry>, dues': seq<real>,
                               ledger': seq<Entry>, c: Scope)
    requires t.kind.P2PTransfer? && t.party.Some? && t.p2pTo.Some? && t.party != t.p2pTo
    requires t.party.value < |dues| && t.p2pTo.value < |dues|
    requires LedgerAgrees(dues, ledger) && LedgerAgrees(dues', ledger')
    requires PartiesMoved(t, delta, 1, dues, dues') && LedgerBranch(ledger, ledger', None)
    requires c.shop.Some? && ShopOf(c.parties, t.party.value) == c.shop && ShopOf(c.parties, t.p2pTo.value) == c.shop
    requires Sum(ledger, EntryOut(c, t.party.value)) == Sum(ledger, EntryOut(c, t.p2pTo.value)) == 0.0
    ensures PartyDrifts(ledger', dues', c, t.party.value) <==> Gap(t.total, 0.0) > 0.01
    ensures PartyDrifts(ledger', dues', c, t.p2pTo.value) <==> Gap(t.total, 0.0) > 0.01
  {
    OutMovesBy(t, delta, dues, ledger, dues', ledger', c, t.party.value);
    OutMovesBy(t, delta, dues, ledger, dues', ledger', c, t.p2pTo.value);
    PartyDriftsExactlyWhen(dues', ledger', c, t.party.value);
    PartyDriftsExactlyWhen(dues', ledger', c, t.p2pTo.value);
  }

  /** What is written without a branch happens elsewhere for every shop. */
  lemma OutMovesBy(t: Txn, delta: real, dues: seq<real>, ledger: seq<Entry>, dues': seq<real>, ledger': seq<Entry>,
                   c: Scope, p: nat)
    requires LedgerAgrees(dues, ledger) && LedgerAgrees(dues', ledger')
    requires PartiesMoved(t, delta, 1, dues, dues') && LedgerBranch(ledger, ledger', None)
    requires c.shop.Some? && p < |dues|
    ensures Sum(ledger', EntryOut(c, p)) == Sum(ledger, EntryOut(c, p)) + PartyShift(t, p, delta)
  {
    var more := ledger'[|ledger|..];
    assert ledger' == ledger + more;
    SumConcat(ledger, more, EntryIn(c, p));
    SumZero(more, EntryIn(c, p));
    EntriesSplit(ledger, c, p);
    EntriesSplit(ledger', c, p);
  }

  // ----- Items -----

  function InOver(levels: map<(nat, nat), real>, c: Scope, i: nat): nat -> real {
    (w: nat) => LevelIn(levels, c, i, w)
  }

  function OutOver(levels: map<(nat, nat), real>, c: Scope, i: nat): nat -> real {
    (w: nat) => LevelAt(levels, i, w) - LevelIn(levels, c, i, w)
  }

  lemma {:induction false} LevelSumIsOver(levels: map<(nat, nat), real>, c: Scope, i: nat, n: nat)
    ensures LevelSum(levels, c, i, n) == Over(n, InOver(levels, c, i))
  {
    if n > 0 { LevelSumIsOver(levels, c, i, n - 1); }
  }

  /** Stock the check does not find: at levels of other shops or of none, or at no warehouse at all. */
  function Absent(d: Docs, levels: map<(nat, nat), real>, c: Scope, i: nat): real {
    if |d.warehouses| == 0 then StockDue(d, i)
    else Unplaced(d, i) + Over(|d.warehouses|, OutOver(levels, c, i))
  }

  /** Right stock is reported exactly when that is more than a thousandth. */
  lemma ItemDriftsExactlyWhen(d: Docs, stock: seq<real>, levels: map<(nat, nat), real>, c: Scope, i: nat)
    requires WellFormed(d) && StockAgrees(d, stock, levels) && i < |stock|
    ensures ItemDrifts(d, levels, stock, c, i)
            <==> d.items[i].trackStock && InScope(c, ShopOf(c.items, i)) && Gap(Absent(d, levels, c, i), 0.0) > 0.001
  {
    var n := |d.warehouses|;
    LevelSumIsOver(levels, c, i, n);
    if n > 0 {
      StockIsLevelsPlusUnplaced(d, i);
      OverPlus(n, LevelOver(d, i), InOver(levels, c, i), OutOver(levels, c, i));
    }
  }

  /**
    Of books as the engine keeps them a check reports nothing exactly when no party in scope did more than a
    paisa's worth out of scope, and no tracked item in scope has more than a thousandth of its stock there.
  */
  lemma CleanExactlyWhen(d: Docs, ledger: seq<Entry>, levels: map<(nat, nat), real>, paid: seq<real>, dues: seq<real>,
                         stock: seq<real>, owed: seq<real>, c: Scope)
    requires WellFormed(d) && StockAgrees(d, stock, levels) && LedgerAgrees(dues, ledger) && BillsAgree(d, paid, owed)
    ensures NoDrift(d, ledger, levels, paid, dues, stock, owed, c)
            <==> (forall p: nat :: p < |dues| && InScope(c, ShopOf(c.parties, p)) ==>
                    Gap(Sum(ledger, EntryOut(c, p)), 0.0) <= 0.01)
                 && (forall i: nat :: i < |stock| && InScope(c, ShopOf(c.items, i)) && d.items[i].trackStock ==>
                    Gap(Absent(d, levels, c, i), 0.0) <= 0.001)
  {
    forall p: nat | p < |dues|
      ensures PartyDrifts(ledger, dues, c, p)
              <==> InScope(c, ShopOf(c.parties, p)) && Gap(Sum(ledger, EntryOut(c, p)), 0.0) > 0.01
    {
      PartyDriftsExactlyWhen(dues, ledger, c, p);
    }
    forall i: nat | i < |stock|
      ensures ItemDrifts(d, levels, stock, c, i)
              <==> d.items[i].trackStock && InScope(c, ShopOf(c.items, i)) && Gap(Absent(d, levels, c, i), 0.0) > 0.001
    {
      ItemDriftsExactlyWhen(d, stock, levels, c, i);
    }
  }

  /** So a check of everything reports no party and no bill, and no item when all stock is placed. */
  lemma BooksShowNoDrift(d: Docs, ledger: seq<Entry>, levels: map<(nat, nat), real>, paid: seq<real>, dues: seq<real>,
                         stock: seq<real>, owed: seq<real>, c: Scope)
    requires WellFormed(d) && StockAgrees(d, stock, levels) && LedgerAgrees(dues, ledger) && BillsAgree(d, paid, owed)
    requires c.shop.None?
    ensures forall p: nat :: p < |dues| ==> !PartyDrifts(ledger, dues, c, p)
    ensures forall x: nat :: x < |owed| ==> !TxnDrifts(d, paid, owed, c, x)
    ensures Shelved(d) ==> NoDrift(d, ledger, levels, paid, dues, stock, owed, c)
  {
    forall p: nat | p < |dues| ensures !PartyDrifts(ledger, dues, c, p) {
      EntriesSplit(ledger, c, p);
      PartyDriftsExactlyWhen(dues, ledger, c, p);
    }
    if Shelved(d) {
      forall i: nat | i < |stock| ensures !ItemDrifts(d, levels, stock, c, i) {
        NothingUnplaced(d, i);
        OverZero(|d.warehouses|, OutOver(levels, c, i));
        ItemDriftsExactlyWhen(d, stock, levels, c, i);
      }
    }
  }
}
