/** Deleting and restoring across whole runs: whatever happens to other documents, to cheques, to
    accounts or to stock in between, a document can be taken out of the books cleanly. */
module History {
  import opened Wrappers
  import opened Sums
  import opened Books
  import opened Steps
  import opened PostingLaws
  import opened Runs
  import opened Recycle

  // ----- Other operations leave a posted document's own rows alone -----

  /** Document id and its payment rows are the same in both, up to status flags and the state of
      cheques; accounts were only added. */
  ghost predicate SameDocument(d: Docs, d': Docs, id: nat) {
    && id < |d.txns| <= |d'.txns| && |d.pays| <= |d'.pays|
    && SameFigures(d.txns[id], d'.txns[id]) && (d'.txns[id].status.Held? ==> d.txns[id].status.Held?)
    && d.accounts <= d'.accounts
    && (forall k :: 0 <= k < |d'.pays| ==> SameRow(d, d', id, k))
  }

  predicate SameRow(d: Docs, d': Docs, id: nat, k: nat)
    requires k < |d'.pays| && |d.pays| <= |d'.pays|
  {
    if k < |d.pays| then
      d'.pays[k].txn == d.pays[k].txn
      && (d.pays[k].txn == id ==> d'.pays[k].(slip := NoSlip) == d.pays[k].(slip := NoSlip))
    else d'.pays[k].txn != id
  }

  lemma PostLeaves(d: Docs, other: nat, ps: seq<PayIn>, als: seq<AllocIn>, id: nat)
    requires Fresh(d, other) && id < |d.txns| && id != other
    ensures SameDocument(d, Post(d, other, ps, als), id)
  {
    var d' := Post(d, other, ps, als);
    TenderRows(other, d.txns[other].kind, d.txns[other].branch, ps, d.accounts, d.pays);
    forall k | 0 <= k < |d'.pays| ensures SameRow(d, d', id, k) {
      if k >= |d.pays| { assert NewRow(other, d.txns[other].kind, d.txns[other].branch, d'.pays[k]); }
    }
  }

  lemma CreateLeaves(d: Docs, f: Draft, id: nat)
    requires WellFormed(d) && CreateOk(d, f) && id < |d.txns|
    ensures SameDocument(d, Create(d, f), id)
  {
    InsertKeepsWellFormed(d, f);
    var d1 := Inserted(d, f);
    assert SameDocument(d, d1, id);
    if !f.OnHold() {
      PostLeaves(d1, |d.txns|, KeptPayments(f), f.allocations, id);
      SameDocumentChains(d, d1, Create(d, f), id);
    }
  }

  lemma ResumeLeaves(d: Docs, other: nat, edit: Option<Edit>, ps: seq<PayIn>, id: nat)
    requires WellFormed(d) && ResumeOk(d, other, edit, ps) && id < |d.txns| && !d.txns[id].status.Held?
    ensures SameDocument(d, Resume(d, other, edit, ps), id)
  {
    ChargeIsFresh(d, other, edit, ps);
    var d1 := Charged(d, other, edit, ps);
    assert SameDocument(d, d1, id);
    PostLeaves(d1, other, ps, [], id);
    SameDocumentChains(d, d1, Resume(d, other, edit, ps), id);
  }

  lemma DeleteLeaves(d: Docs, other: nat, id: nat)
    requires WellFormed(d) && other < |d.txns| && id < |d.txns| && id != other
    ensures SameDocument(d, Delete(d, other), id)
  {
    if !d.txns[other].status.Held? { UnpostTurns(d, other); }
  }

  lemma RestoreLeaves(d: Docs, other: nat, id: nat)
    requires WellFormed(d) && other < |d.txns| && id < |d.txns| && id != other
    ensures SameDocument(d, Restore(d, other), id)
  {
    if !d.txns[other].status.Held? { RepostTurns(d, other); }
  }

  predicate Touches(st: Step, id: nat) { st == DoDelete(id) || st == DoRestore(id) }

  lemma OtherDocumentLeavesIt(d: Docs, st: Step, id: nat)
    requires WellFormed(d) && id < |d.txns| && !d.txns[id].status.Held? && !Touches(st, id)
    requires Allowed(d, st) && OnDocument(st)
    ensures SameDocument(d, Next(d, st), id)
  {
    hide WellFormed, SameDocument;
    match st
    case DoCreate(f) => CreateLeaves(d, f, id);
    case DoResume(other, edit, ps) => ResumeLeaves(d, other, edit, ps, id);
    case DoDelete(other) => DeleteLeaves(d, other, id);
    case DoRestore(other) => RestoreLeaves(d, other, id);
  }

  lemma OthersLeaveIt(d: Docs, st: Step, id: nat)
    requires WellFormed(d) && id < |d.txns| && !d.txns[id].status.Held? && d.txns[id].posted && !Touches(st, id)
    ensures SameDocument(d, Next(d, st), id)
  {
    if Allowed(d, st) && OnDocument(st) { OtherDocumentLeavesIt(d, st, id); }
  }

  lemma SameDocumentChains(a: Docs, b: Docs, c: Docs, id: nat)
    requires SameDocument(a, b, id) && SameDocument(b, c, id)
    ensures SameDocument(a, c, id)
  {
    forall k | 0 <= k < |c.pays| ensures SameRow(a, c, id, k) {
      assert SameRow(b, c, id, k);
      if k < |b.pays| { assert SameRow(a, b, id, k); }
    }
  }

  lemma {:induction false} RunLeavesIt(d: Docs, steps: seq<Step>, id: nat)
    requires WellFormed(d) && id < |d.txns| && !d.txns[id].status.Held? && d.txns[id].posted
    requires forall k :: 0 <= k < |steps| ==> !Touches(steps[k], id)
    ensures SameDocument(d, Run(d, steps), id)
  {
    if |steps| > 0 {
      var n := |steps| - 1;
      RunLeavesIt(d, steps[..n], id);
      RunKeepsWellFormed(d, steps[..n]);
      OthersLeaveIt(Run(d, steps[..n]), steps[n], id);
      SameDocumentChains(d, Run(d, steps[..n]), Run(d, steps), id);
    }
  }

  lemma StillPostedOnce(d: Docs, d': Docs, id: nat)
    requires PostedOnce(d, id) && WellFormed(d') && SameDocument(d, d', id)
    ensures PostedOnce(d', id)
  {
    forall k | 0 <= k < |d'.pays| && d'.pays[k].txn == id
      ensures AsPosted(d'.accounts, d'.txns[id].branch, d'.pays[k])
    {
      assert SameRow(d, d', id, k);
      assert AsPosted(d.accounts, d.txns[id].branch, d.pays[k]);
      assert PayOk(d, d.pays[k]) && PayRefs(d.accounts, d.pays[k]);
    }
  }

  // ----- Creating posts once -----

  lemma {:induction false} TenderAsPosted(id: nat, kind: Kind, branch: Option<nat>, ps: seq<PayIn>,
                                          accounts: seq<Account>, pays: seq<Pay>)
    requires TendersOk(accounts, ps)
    ensures var (accounts', pays') := TenderAll(id, kind, branch, ps, accounts, pays);
            accounts <= accounts' && pays <= pays'
            && forall k :: |pays| <= k < |pays'|
                 ==> AsPosted(accounts', branch, pays'[k])
                     && (pays'[k].account.Some? ==> pays'[k].account.value < |accounts'|)
  {
    if |ps| > 0 {
      var n := |ps| - 1;
      TenderAsPosted(id, kind, branch, ps[..n], accounts, pays);
      var (accounts1, pays1) := TenderAll(id, kind, branch, ps[..n], accounts, pays);
      var (accounts2, pays2) := TenderOne(id, kind, branch, ps[n], accounts1, pays1);
      assert TenderOk(accounts, ps[n]);
      forall k | |pays| <= k < |pays2| ensures AsPosted(accounts2, branch, pays2[k]) {
        if k < |pays1| { assert AsPosted(accounts1, branch, pays1[k]); }
      }
    }
  }

  /** Posting a document that has never been posted leaves its effects there exactly once. */
  lemma PostPostsOnce(d: Docs, id: nat, ps: seq<PayIn>, als: seq<AllocIn>)
    requires Fresh(d, id) && PostOk(d, id, ps, als) && WellFormed(Post(d, id, ps, als))
    ensures PostedOnce(Post(d, id, ps, als), id)
    ensures SameFigures(PostedTxn(d, id, ps), Post(d, id, ps, als).txns[id])
  {
    var d' := Post(d, id, ps, als);
    TenderAsPosted(id, d.txns[id].kind, d.txns[id].branch, ps, d.accounts, d.pays);
    assert TxnOk(d', id);
    assert forall k :: 0 <= k < |d.pays| ==> d'.pays[k] == d.pays[k] && d.pays[k].txn != id;
  }

  /** A new document's effects are there exactly once, and it was counted as paid what its stored
      payment rows say. */
  lemma CreatePostsOnce(d: Docs, f: Draft)
    requires WellFormed(d) && CreateOk(d, f) && !f.OnHold()
    ensures PostedOnce(Create(d, f), |d.txns|)
    ensures var t := Create(d, f).txns[|d.txns|]; t.branch == f.branch && Delta(t, t.base) == Delta(t, t.settled)
  {
    InsertKeepsWellFormed(d, f);
    CreateKeeps(d, f);
    PostPostsOnce(Inserted(d, f), |d.txns|, KeptPayments(f), f.allocations);
    NegativePaymentsSkew(KeptPayments(f));
  }

  /** So are a charged bill's, but it was counted as paid what it was charged with, negative payments
      included. */
  lemma ResumePostsOnce(d: Docs, id: nat, edit: Option<Edit>, ps: seq<PayIn>)
    requires WellFormed(d) && ResumeOk(d, id, edit, ps)
    ensures PostedOnce(Resume(d, id, edit, ps), id)
    ensures var t, t' := d.txns[id], Resume(d, id, edit, ps).txns[id];
            && t'.branch == t.branch && t'.kind == t.kind && t'.party == t.party && t'.source == t.source
            && t'.base == Sum(ps, NonDebt()) && t'.settled == Sum(ps, RowPart())
  {
    ChargeIsFresh(d, id, edit, ps);
    ResumeKeeps(d, id, edit, ps);
    PostPostsOnce(Charged(d, id, edit, ps), id, ps, []);
  }

  // ----- Deleting whatever happened since -----

  /** Stock, stock levels and bills are the same in both. */
  ghost predicate SameGoods(d: Docs, d': Docs)
    requires |d.txns| == |d'.txns|
  {
    && (forall i: nat :: StockDue(d, i) == StockDue(d', i))
    && (forall i: nat, w: nat :: LevelDue(d, i, w) == LevelDue(d', i, w))
    && (forall x: nat :: x < |d.txns| ==> PaidDue(d, x) == PaidDue(d', x))
  }

  ghost predicate SameParties(d: Docs, d': Docs)
    requires |d.parties| == |d'.parties|
  {
    forall p: nat :: p < |d.parties| ==> PartyDue(d, p) == PartyDue(d', p)
  }

  ghost predicate SameMoney(d: Docs, d': Docs)
    requires |d.accounts| == |d'.accounts|
  {
    forall a: nat :: a < |d.accounts| ==> AccountDue(d, a) == AccountDue(d', a)
  }

  /** Every payment of the document would come back. */
  predicate AllComeBack(d: Docs, id: nat)
    requires id < |d.txns|
  {
    forall k {:trigger d.pays[k]} :: 0 <= k < |d.pays| && d.pays[k].txn == id ==>
      ComesBack(d.accounts, d.txns[id].branch, d.pays[k])
  }

  /** The party's balance depends on what was paid. */
  predicate OnAccount(k: Kind) { k.SaleInvoice? || k.DebitNote? || k.CreditNote? || k.PurchaseBill? }

  lemma DeleteShape(d: Docs, id: nat)
    requires id < |d.txns|
    ensures |Delete(d, id).txns| == |d.txns| == |Without(d, id).txns|
    ensures |Delete(d, id).parties| == |Without(d, id).parties| && |Delete(d, id).accounts| == |Without(d, id).accounts|
  {
    UnpostTurns(d, id);
  }

  lemma DeleteErasesAll(d: Docs, id: nat)
    requires PostedOnce(d, id)
    ensures var after, never, t := Delete(d, id), Without(d, id), d.txns[id];
            && |after.txns| == |never.txns| && SameGoods(after, never)
            && |after.parties| == |never.parties|
            && (SameParties(after, never) <==>
                  t.party.None? || t.kind.P2PTransfer? || Delta(t, t.base) == Delta(t, t.settled))
            && |after.accounts| == |never.accounts|
            && (SameMoney(after, never) <==> AllComeBack(d, id))
  {
    DeleteShape(d, id);
    DeleteErasesGoods(d, id);
    DeleteErasesParty(d, id);
    DeleteErasesMoney(d, id);
  }

  /** Nothing but deleting or restoring it touches the effects of a document posted once. */
  lemma PostedOnceThroughRun(d: Docs, steps: seq<Step>, id: nat)
    requires PostedOnce(d, id)
    requires forall k :: 0 <= k < |steps| ==> !Touches(steps[k], id)
    ensures var t, d' := d.txns[id], Run(d, steps);
            && PostedOnce(d', id)
            && SameFigures(t, d'.txns[id])
  {
    RunLeavesIt(d, steps, id);
    RunKeepsWellFormed(d, steps);
    StillPostedOnce(d, Run(d, steps), id);
  }

  lemma DeleteAfterPosted(d: Docs, id: nat, steps: seq<Step>)
    requires PostedOnce(d, id) && DeleteOk(Run(d, steps), id)
    requires forall k :: 0 <= k < |steps| ==> !Touches(steps[k], id)
    ensures var t, before := d.txns[id], Run(d, steps);
            && id < |before.txns|
            && var after, never := Next(before, DoDelete(id)), Without(before, id);
               && |after.txns| == |never.txns| && SameGoods(after, never)
               && |after.parties| == |never.parties|
               && (SameParties(after, never) <==>
                     t.party.None? || t.kind.P2PTransfer? || Delta(t, t.base) == Delta(t, t.settled))
               && |after.accounts| == |never.accounts| && (SameMoney(after, never) <==> AllComeBack(before, id))
  {
    hide Run, Delete, Without, DeleteOk, SameGoods, SameParties, SameMoney, AllComeBack;
    PostedOnceThroughRun(d, steps, id);
    DeleteErasesAll(Run(d, steps), id);
  }

  /**
    Create a document, then let anything at all happen except deleting or restoring it, then
    delete it: stock, stock levels, bills and party balances are as if it had never been posted,
    and so is every account exactly when each of its payments comes back.
  */
  lemma DeleteAfterAnything(d: Docs, f: Draft, steps: seq<Step>)
    requires WellFormed(d) && CreateOk(d, f) && !f.OnHold()
    requires forall k :: 0 <= k < |steps| ==> !Touches(steps[k], |d.txns|)
    requires DeleteOk(Run(Create(d, f), steps), |d.txns|)
    ensures var id, before := |d.txns|, Run(Create(d, f), steps);
            var after, never := Next(before, DoDelete(id)), Without(before, id);
            && |after.txns| == |never.txns| && SameGoods(after, never)
            && |after.parties| == |never.parties| && SameParties(after, never)
            && |after.accounts| == |never.accounts| && (SameMoney(after, never) <==> AllComeBack(before, id))
  {
    CreatePostsOnce(d, f);
    hide Create, Run, Next, Without, SameGoods, SameParties, SameMoney, AllComeBack;
    DeleteAfterPosted(Create(d, f), |d.txns|, steps);
  }

  /**
    The same for a held bill that is charged, with any payments: stock, levels and bills are as if
    it had never been posted; parties are exactly when it has none, or is of a kind that does not go
    on account, or no payment was negative; accounts exactly when each payment comes back.
  */
  lemma DeleteAfterCharging(d: Docs, id: nat, edit: Option<Edit>, ps: seq<PayIn>, steps: seq<Step>)
    requires WellFormed(d) && ResumeOk(d, id, edit, ps)
    requires forall k :: 0 <= k < |steps| ==> !Touches(steps[k], id)
    requires DeleteOk(Run(Resume(d, id, edit, ps), steps), id)
    ensures var before := Run(Resume(d, id, edit, ps), steps);
            var after, never := Next(before, DoDelete(id)), Without(before, id);
            && |after.txns| == |never.txns| && SameGoods(after, never)
            && |after.parties| == |never.parties|
            && (SameParties(after, never)
                <==> d.txns[id].party.None? || !OnAccount(d.txns[id].kind) || NoneNegative(ps))
            && |after.accounts| == |never.accounts| && (SameMoney(after, never) <==> AllComeBack(before, id))
  {
    ResumePostsOnce(d, id, edit, ps);
    ChargedAsPaid(Resume(d, id, edit, ps).txns[id], ps);
    hide Resume, Run, Next, Without, SameGoods, SameParties, SameMoney, AllComeBack;
    DeleteAfterPosted(Resume(d, id, edit, ps), id, steps);
  }

  /** What a bill was charged with is what its rows say exactly when no payment was negative, or it
      does not go on account. */
  lemma ChargedAsPaid(t: Txn, ps: seq<PayIn>)
    requires t.base == Sum(ps, NonDebt()) && t.settled == Sum(ps, RowPart())
    ensures Delta(t, t.base) == Delta(t, t.settled) <==> !OnAccount(t.kind) || NoneNegative(ps)
  {
    NegativePaymentsSkew(ps);
  }

  predicate NoneNegative(ps: seq<PayIn>) { forall k :: 0 <= k < |ps| ==> ps[k].tender.Debt? || ps[k].amount >= 0.0 }
}
