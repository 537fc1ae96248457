/** Over whole runs: party accounts reconcile with open items, account statements with balances,
    and item stock with the warehouses. */
module Reconciliation {
  import opened Wrappers
  import opened Sums
  import opened Books
  import opened Steps
  import opened Laws
  import opened PostingLaws
  import opened Runs
  import opened Recycle
  import opened Soundness
  import opened Agreement

  // ----- Party accounts -----

  ghost predicate Reconciled(d: Docs) {
    && Sound(d)
    && (forall x :: 0 <= x < |d.txns| ==> Straight(d.txns[x]))
    && (forall k {:trigger CleanAllocation(d, d.allocs[k])} :: 0 <= k < |d.allocs|
          ==> AllocOk(d, d.allocs[k]) && CleanAllocation(d, d.allocs[k]))
  }

  /** Allocations go, without discount, from a party's payment to live posted bills; no deleted
      bill is charged and none with negative payments; no held bill is converted, anyone's source, or
      marked as refunded. */
  ghost predicate Plain(d: Docs, st: Step) {
    match st
    case DoCreate(f) =>
      !f.OnHold() && IsPayment(f.kind) && |f.allocations| > 0
      ==> f.party.Some? && forall k :: 0 <= k < |f.allocations| ==> PlainAllocation(d, f.allocations[k])
    case DoResume(id, edit, ps) => (id < |d.txns| ==> !d.txns[id].deleted)
        && forall k :: 0 <= k < |ps| ==> ps[k].tender.Debt? || ps[k].amount >= 0.0
    case DoDelete(id) => id < |d.txns| && d.txns[id].source.Some? && d.txns[id].source.value < |d.txns|
        ==> !d.txns[d.txns[id].source.value].status.Held?
    case DoClaim(id, lines) => id < |d.txns| && d.txns[id].status.Held? ==> ClaimedStatus(d, id, lines).Held?
    case DoRelease(id, seen) => id < |d.txns| ==> !d.txns[id].status.Held? && !seen.Held?
    case DoMark(id) => id < |d.txns| ==> !d.txns[id].status.Held?
    case _ => true
  }

  predicate PlainAllocation(d: Docs, a: AllocIn) {
    a.discount == 0.0 && (a.against < |d.txns| ==> Live(d.txns[a.against]))
  }

  /** Posting changes no flag that matters of any document, when only live bills are allocated to. */
  lemma PostedFlags(d: Docs, id: nat, ps: seq<PayIn>, als: seq<AllocIn>, x: nat)
    requires Fresh(d, id) && PostOk(d, id, ps, als) && x < |d.txns|
    requires IsPayment(d.txns[id].kind) ==> forall k :: 0 <= k < |als| ==> PlainAllocation(d, als[k])
    ensures var d' := Post(d, id, ps, als);
            && |d'.txns| == |d.txns|
            && SameFigures(d.txns[id := PostedTxn(d, id, ps)][x], d'.txns[x])
            && d'.txns[x].deleted == d.txns[x].deleted && d'.txns[x].status.Held? == d.txns[x].status.Held?
  {
    var used := if IsPayment(d.txns[id].kind) then als else [];
    var d' := Post(d, id, ps, als);
    RestatedHold(d'.(txns := d.txns[id := PostedTxn(d, id, ps)]), TargetsIn(used), x);
    if TargetsIn(used)(x) {
      var k :| 0 <= k < |used| && used[k].against == x;
      assert AllocInOk(d, d.txns[id].kind, d.txns[id].party, used[k]) && PlainAllocation(d, used[k]);
    }
  }

  lemma {:induction false} PostReconciles(d: Docs, id: nat, ps: seq<PayIn>, als: seq<AllocIn>)
    requires Fresh(d, id) && PostOk(d, id, ps, als) && WellFormed(Post(d, id, ps, als))
    requires forall x :: 0 <= x < |d.txns| && x != id ==> Counted(d.txns[x]) && Straight(d.txns[x])
    requires forall k {:trigger CleanAllocation(d, d.allocs[k])} :: 0 <= k < |d.allocs|
               ==> AllocOk(d, d.allocs[k]) && CleanAllocation(d, d.allocs[k])
    requires !d.txns[id].deleted && Delta(d.txns[id], d.txns[id].base) == Delta(d.txns[id], Sum(ps, RowPart()))
    requires IsPayment(d.txns[id].kind) && |als| > 0
             ==> d.txns[id].party.Some? && forall k :: 0 <= k < |als| ==> PlainAllocation(d, als[k])
    ensures Reconciled(Post(d, id, ps, als))
  {
    hide Post;
    var d' := Post(d, id, ps, als);
    PostedFlags(d, id, ps, als, id);
    forall x: nat | x < |d.txns|
      ensures SameFigures(d.txns[id := PostedTxn(d, id, ps)][x], d'.txns[x]) && d'.txns[x].deleted == d.txns[x].deleted
      ensures d'.txns[x].status.Held? == d.txns[x].status.Held?
    {
      PostedFlags(d, id, ps, als, x);
    }
    assert Sound(d') by {
      forall x: nat | x < |d.txns| && x != id ensures Counted(d'.txns[x]) { assert Counted(d.txns[x]); }
    }
    forall x | 0 <= x < |d'.txns| ensures Straight(d'.txns[x]) { if x != id { assert Straight(d.txns[x]); } }
    PostedAllocsClean(d, id, ps, als);
  }

  lemma PostedAllocsClean(d: Docs, id: nat, ps: seq<PayIn>, als: seq<AllocIn>)
    requires Fresh(d, id) && PostOk(d, id, ps, als) && WellFormed(Post(d, id, ps, als))
    requires forall k {:trigger CleanAllocation(d, d.allocs[k])} :: 0 <= k < |d.allocs|
               ==> AllocOk(d, d.allocs[k]) && CleanAllocation(d, d.allocs[k])
    requires IsPayment(d.txns[id].kind) && |als| > 0
             ==> d.txns[id].party.Some? && forall k :: 0 <= k < |als| ==> PlainAllocation(d, als[k])
    ensures var d' := Post(d, id, ps, als);
            forall k {:trigger CleanAllocation(d', d'.allocs[k])} :: 0 <= k < |d'.allocs|
                ==> AllocOk(d', d'.allocs[k]) && CleanAllocation(d', d'.allocs[k])
  {
    var used := if IsPayment(d.txns[id].kind) then als else [];
    var d' := Post(d, id, ps, als);
    forall k | 0 <= k < |d'.allocs| ensures AllocOk(d', d'.allocs[k]) && CleanAllocation(d', d'.allocs[k]) {
      assert AllocOk(d', d'.allocs[k]);
      if k < |d.allocs| {
        assert CleanAllocation(d, d.allocs[k]);
      } else {
        assert AllocInOk(d, d.txns[id].kind, d.txns[id].party, used[k - |d.allocs|])
               && PlainAllocation(d, used[k - |d.allocs|]);
      }
      PostedFlags(d, id, ps, als, d'.allocs[k].pay);
      PostedFlags(d, id, ps, als, d'.allocs[k].against);
    }
  }

  lemma NewIsStraight(f: Draft)
    ensures Delta(NewTxn(f), NewTxn(f).base) == Delta(NewTxn(f), Sum(KeptPayments(f), RowPart()))
    ensures f.OnHold() ==> Counted(NewTxn(f)) && Straight(NewTxn(f))
  {
    NegativePaymentsSkew(KeptPayments(f));
  }

  lemma InsertReconciles(d: Docs, f: Draft)
    requires WellFormed(d) && Reconciled(d) && CreateOk(d, f) && Plain(d, DoCreate(f)) && WellFormed(Inserted(d, f))
    ensures var d1 := Inserted(d, f);
            && (forall x :: 0 <= x < |d.txns| ==> Counted(d1.txns[x]) && Straight(d1.txns[x]))
            && (forall k {:trigger CleanAllocation(d1, d1.allocs[k])} :: 0 <= k < |d1.allocs|
                  ==> AllocOk(d1, d1.allocs[k]) && CleanAllocation(d1, d1.allocs[k]))
            && (!f.OnHold() && IsPayment(f.kind)
                ==> forall k :: 0 <= k < |f.allocations| ==> PlainAllocation(d1, f.allocations[k]))
  {
    var d1 := Inserted(d, f);
    forall x | 0 <= x < |d.txns|
      ensures Counted(d1.txns[x]) && Straight(d1.txns[x])
    {
      assert Counted(d.txns[x]) && Straight(d.txns[x]);
    }
    forall k | 0 <= k < |d1.allocs| ensures AllocOk(d1, d1.allocs[k]) && CleanAllocation(d1, d1.allocs[k]) {
      assert AllocOk(d1, d1.allocs[k]) && AllocOk(d, d.allocs[k]) && CleanAllocation(d, d.allocs[k]);
    }
    if !f.OnHold() && IsPayment(f.kind) {
      forall k | 0 <= k < |f.allocations| ensures PlainAllocation(d1, f.allocations[k]) {
        assert PlainAllocation(d, f.allocations[k]) && AllocInOk(d1, f.kind, f.party, f.allocations[k]);
      }
    }
  }

  lemma CreateReconciles(d: Docs, f: Draft)
    requires WellFormed(d) && Reconciled(d) && CreateOk(d, f) && Plain(d, DoCreate(f))
    ensures Reconciled(Create(d, f))
  {
    InsertKeepsWellFormed(d, f);
    CreateKeeps(d, f);
    InsertReconciles(d, f);
    NewIsStraight(f);
    if !f.OnHold() { PostReconciles(Inserted(d, f), |d.txns|, KeptPayments(f), f.allocations); }
  }

  lemma ResumeReconciles(d: Docs, id: nat, edit: Option<Edit>, ps: seq<PayIn>)
    requires WellFormed(d) && Reconciled(d) && ResumeOk(d, id, edit, ps) && Plain(d, DoResume(id, edit, ps))
    ensures Reconciled(Resume(d, id, edit, ps))
  {
    var d1 := Charged(d, id, edit, ps);
    ChargeIsFresh(d, id, edit, ps);
    ResumeKeeps(d, id, edit, ps);
    NegativePaymentsSkew(ps);
    forall x | 0 <= x < |d.txns| && x != id
      ensures Counted(d1.txns[x]) && Straight(d1.txns[x])
    {
      assert Counted(d.txns[x]) && Straight(d.txns[x]);
    }
    forall k | 0 <= k < |d1.allocs| ensures AllocOk(d1, d1.allocs[k]) && CleanAllocation(d1, d1.allocs[k]) {
      assert AllocOk(d1, d1.allocs[k]) && AllocOk(d, d.allocs[k]) && CleanAllocation(d, d.allocs[k]);
    }
    PostReconciles(d1, id, ps, []);
  }

  /** Documents changed only in flags, without touching any bill that has allocations, and
      allocations changed only in their counts. */
  lemma FlagsReconcile(d: Docs, d': Docs)
    requires Reconciled(d) && WellFormed(d') && Sound(d')
    requires |d'.txns| == |d.txns| && |d'.allocs| == |d.allocs|
    requires forall x :: 0 <= x < |d.txns| ==> SameFigures(d.txns[x].(net := d'.txns[x].net), d'.txns[x])
                                               && d'.txns[x].status.Held? == d.txns[x].status.Held?
    requires forall k :: 0 <= k < |d.allocs| ==> d'.allocs[k] == d.allocs[k].(net := d'.allocs[k].net)
    requires forall x :: 0 <= x < |d.txns| && d'.txns[x].deleted && !d.txns[x].deleted ==> !HasAllocation(d, x)
    ensures Reconciled(d')
  {
    forall x | 0 <= x < |d'.txns| ensures Straight(d'.txns[x]) { assert Straight(d.txns[x]); }
    forall k | 0 <= k < |d'.allocs| ensures AllocOk(d', d'.allocs[k]) && CleanAllocation(d', d'.allocs[k]) {
      assert AllocOk(d', d'.allocs[k]) && CleanAllocation(d, d.allocs[k]);
      assert HasAllocation(d, d.allocs[k].against);
    }
  }

  lemma DeleteKeepsFlags(d: Docs, id: nat, x: nat)
    requires WellFormed(d) && DeleteOk(d, id) && Plain(d, DoDelete(id)) && x < |d.txns|
    ensures var d' := Delete(d, id);
            && |d'.txns| == |d.txns|
            && SameFigures(d.txns[x].(net := d'.txns[x].net), d'.txns[x])
            && d'.txns[x].status.Held? == d.txns[x].status.Held?
            && d'.txns[x].deleted == (d.txns[x].deleted || x == id)
  {
    assert TxnOk(d, id);
    if !d.txns[id].status.Held? { TurnSound(d, Unpost(d, id), id, -1, x); }
  }

  lemma DeleteReconciles(d: Docs, id: nat)
    requires WellFormed(d) && Reconciled(d) && DeleteOk(d, id) && Plain(d, DoDelete(id))
    ensures Reconciled(Delete(d, id))
  {
    var d' := Delete(d, id);
    DeleteKeeps(d, id);
    assert Orderly(d, DoDelete(id)) by { assert TxnOk(d, id); }
    DeleteSound(d, id);
    if !d.txns[id].status.Held? { UnpostTurns(d, id); }
    forall x: nat | x < |d.txns|
      ensures SameFigures(d.txns[x].(net := d'.txns[x].net), d'.txns[x])
      ensures d'.txns[x].status.Held? == d.txns[x].status.Held? && d'.txns[x].deleted == (d.txns[x].deleted || x == id)
    {
      DeleteKeepsFlags(d, id, x);
    }
    hide WellFormed, Sound, Plain, Orderly;
    FlagsReconcile(d, d');
  }

  lemma RestoreReconciles(d: Docs, id: nat)
    requires WellFormed(d) && Reconciled(d) && RestoreOk(d, id)
    ensures Reconciled(Restore(d, id))
  {
    var d' := Restore(d, id);
    RestoreKeeps(d, id);
    RestoreSound(d, id);
    if !d.txns[id].status.Held? { RepostTurns(d, id); }
    forall x: nat | x < |d.txns|
      ensures SameFigures(d.txns[x].(net := d'.txns[x].net), d'.txns[x])
              && d'.txns[x].status.Held? == d.txns[x].status.Held?
      ensures d'.txns[x].deleted ==> d.txns[x].deleted
    {
      if !d.txns[id].status.Held? { TurnSound(d, Repost(d, id), id, 1, x); }
    }
    FlagsReconcile(d, d');
  }

  lemma DocumentStepReconciles(d: Docs, st: Step)
    requires WellFormed(d) && Reconciled(d) && Plain(d, st) && Allowed(d, st) && OnDocument(st)
    ensures Reconciled(Next(d, st))
  {
    hide WellFormed, Reconciled;
    match st
    case DoCreate(f) => CreateReconciles(d, f);
    case DoResume(id, edit, ps) => ResumeReconciles(d, id, edit, ps);
    case DoDelete(id) => DeleteReconciles(d, id);
    case DoRestore(id) => RestoreReconciles(d, id);
  }

  lemma StatusReconciles(d: Docs, id: nat, s: Status)
    requires WellFormed(d) && Reconciled(d) && id < |d.txns| && !d.txns[id].status.Held? && !s.Held?
    ensures Reconciled(WithStatus(d, id, s))
  {
    StatusKeeps(d, id, s);
    StatusSound(d, id, s);
    FlagsReconcile(d, WithStatus(d, id, s));
  }

  lemma StatusStepReconciles(d: Docs, st: Step)
    requires WellFormed(d) && Reconciled(d) && Plain(d, st) && Allowed(d, st) && OnStatus(st)
    ensures Reconciled(Next(d, st))
  {
    match st
    case DoClaim(id, lines) =>
      if d.txns[id].status.Held? {
        assert Next(d, st) == d;
      } else {
        StatusReconciles(d, id, ClaimedStatus(d, id, lines));
      }
    case DoRelease(id, seen) => StatusReconciles(d, id, seen);
    case DoMark(id) => StatusReconciles(d, id, Refunded);
  }

  lemma NextReconciles(d: Docs, st: Step)
    requires WellFormed(d) && Reconciled(d) && Plain(d, st)
    ensures Reconciled(Next(d, st))
  {
    if Allowed(d, st) {
      if OnDocument(st) {
        DocumentStepReconciles(d, st);
      } else if OnStatus(st) {
        StatusStepReconciles(d, st);
      } else {
        NextKeepsWellFormed(d, st);
        assert Next(d, st).txns == d.txns && Next(d, st).allocs == d.allocs;
        FlagsReconcile(d, Next(d, st));
      }
    }
  }

  /** After every run of plain operations, each party's balance is its opening balance plus its
      open items. */
  lemma {:induction false} PartiesReconcile(d: Docs, steps: seq<Step>)
    requires WellFormed(d) && Reconciled(d)
    requires forall n {:trigger steps[n]} :: 0 <= n < |steps| ==> Plain(Run(d, steps[..n]), steps[n])
    ensures var d' := Run(d, steps);
            && WellFormed(d') && Reconciled(d')
            && forall p: nat :: p < |d'.parties| ==> PartyDue(d', p) == d'.parties[p] + Over(|d'.txns|, OpenItem(d', p))
  {
    hide WellFormed, Reconciled, Plain, Next;
    if |steps| > 0 {
      var n := |steps| - 1;
      var init := steps[..n];
      forall m | 0 <= m < n
        ensures Plain(Run(d, init[..m]), init[m])
      {
        assert init[..m] == steps[..m] && init[m] == steps[m];
      }
      PartiesReconcile(d, init);
      assert Plain(Run(d, steps[..n]), steps[n]);
      NextKeepsWellFormed(Run(d, init), steps[n]);
      NextReconciles(Run(d, init), steps[n]);
    }
    PartiesAddUp(Run(d, steps));
  }

  lemma PartiesAddUp(d: Docs)
    requires WellFormed(d) && Reconciled(d)
    ensures forall p: nat :: p < |d.parties| ==> PartyDue(d, p) == d.parties[p] + Over(|d.txns|, OpenItem(d, p))
  {
    forall p: nat | p < |d.parties| ensures PartyDue(d, p) == d.parties[p] + Over(|d.txns|, OpenItem(d, p)) {
      ControlEqualsSubledger(d, p);
    }
  }

  // ----- Account statements -----

  /** The row's money sits on an account of its document's own branch exactly while it is live. */
  predicate AtHome(accounts: seq<Account>, branch: Option<nat>, r: Pay, live: bool) {
    r.tender.Cheque?
    || (r.account.Some? && Resolve(accounts, branch, r.account, r.tender).Some? && r.net == (if live then 1 else 0))
  }

  ghost predicate Stated(d: Docs) {
    && (forall k {:trigger d.pays[k]} :: 0 <= k < |d.pays| ==> RowStated(d, d.pays[k]))
    && (forall k {:trigger d.transfers[k]} :: 0 <= k < |d.transfers| ==> Tidy(d.transfers[k]))
  }

  predicate RowStated(d: Docs, r: Pay) {
    r.txn < |d.txns| && AtHome(d.accounts, d.txns[r.txn].branch, r, !d.txns[r.txn].deleted)
  }

  /** The payment goes to an account of the document's branch: the chosen one is of that branch,
      or the branch has one for its tender, or nobody has and one is opened. */
  predicate LandsHome(accounts: seq<Account>, branch: Option<nat>, p: PayIn) {
    MakesRow(p) && !p.tender.Cheque? ==>
      if p.account.Some? then Resolve(accounts, branch, p.account, p.tender).Some?
      else FirstTill(accounts, TillOf(p.tender), branch).Some?
           || (branch.Some? && FirstTill(accounts, TillOf(p.tender), None).None?)
  }

  predicate AllLandHome(accounts: seq<Account>, branch: Option<nat>, ps: seq<PayIn>) {
    forall k :: 0 <= k < |ps| ==> LandsHome(accounts, branch, ps[k])
  }

  /** Payments stay within the branch, nothing deleted is charged, and a one-sided correction
      names only the account it moves. */
  ghost predicate Local(d: Docs, st: Step) {
    match st
    case DoCreate(f) => AllLandHome(d.accounts, f.branch, KeptPayments(f))
    case DoResume(id, edit, ps) => id < |d.txns|
        ==> !d.txns[id].deleted && AllLandHome(d.accounts, d.txns[id].branch, ps)
    case DoTransfer(x) => Tidy(x)
    case _ => true
  }

  lemma AccountOpensAtHome(accounts: seq<Account>, x: Account, branch: Option<nat>, p: PayIn)
    requires LandsHome(accounts, branch, p) && x.branch == branch
    ensures LandsHome(accounts + [x], branch, p)
  {
    FirstTillAppend(accounts, x, TillOf(p.tender), branch);
    FirstTillAppend(accounts, x, TillOf(p.tender), None);
  }

  lemma {:induction false} TendersLandHome(id: nat, kind: Kind, branch: Option<nat>, ps: seq<PayIn>,
                                           accounts: seq<Account>, pays: seq<Pay>)
    requires AllLandHome(accounts, branch, ps)
    ensures var (accounts', pays') := TenderAll(id, kind, branch, ps, accounts, pays);
            && accounts <= accounts' && pays <= pays'
            && (forall p :: LandsHome(accounts, branch, p) ==> LandsHome(accounts', branch, p))
            && (forall k :: |pays| <= k < |pays'| ==> pays'[k].txn == id && AtHome(accounts', branch, pays'[k], true))
  {
    if |ps| > 0 {
      var n := |ps| - 1;
      TendersLandHome(id, kind, branch, ps[..n], accounts, pays);
      var (accounts1, pays1) := TenderAll(id, kind, branch, ps[..n], accounts, pays);
      var (accounts2, pays2) := TenderOne(id, kind, branch, ps[n], accounts1, pays1);
      assert LandsHome(accounts1, branch, ps[n]);
      if accounts2 != accounts1 {
        forall p | LandsHome(accounts1, branch, p) ensures LandsHome(accounts2, branch, p) {
          AccountOpensAtHome(accounts1, accounts2[|accounts1|], branch, p);
        }
      }
      forall k | |pays| <= k < |pays2| ensures pays2[k].txn == id && AtHome(accounts2, branch, pays2[k], true) {
        if k < |pays1| { assert AtHome(accounts1, branch, pays1[k], true); }
      }
    }
  }

  lemma PostStates(d: Docs, id: nat, ps: seq<PayIn>, als: seq<AllocIn>)
    requires Fresh(d, id) && Stated(d) && !d.txns[id].deleted && AllLandHome(d.accounts, d.txns[id].branch, ps)
    ensures Stated(Post(d, id, ps, als))
  {
    var d' := Post(d, id, ps, als);
    TendersLandHome(id, d.txns[id].kind, d.txns[id].branch, ps, d.accounts, d.pays);
    forall k | 0 <= k < |d'.pays| ensures RowStated(d', d'.pays[k]) {
      var x := d'.pays[k].txn;
      if k < |d.pays| { assert RowStated(d, d.pays[k]); }
      assert SameFigures(d.txns[id := PostedTxn(d, id, ps)][x], d'.txns[x]) && d'.txns[x].deleted == d.txns[x].deleted;
    }
  }

  lemma TurnStates(d: Docs, id: nat, step: int, d': Docs)
    requires WellFormed(d) && Stated(d) && id < |d.txns| && !d.txns[id].status.Held?
    requires (d' == Delete(d, id) && step == -1 && !d.txns[id].deleted)
             || (d' == Restore(d, id) && step == 1 && d.txns[id].deleted)
    ensures Stated(d')
  {
    if step == -1 { UnpostTurns(d, id); } else { RepostTurns(d, id); }
    assert TxnOk(d, id);
    forall k | 0 <= k < |d'.pays| ensures RowStated(d', d'.pays[k]) {
      assert RowStated(d, d.pays[k]);
      if !d.txns[id].status.Held? {
        TurnSound(d, if step == -1 then Unpost(d, id) else Repost(d, id), id, step, d.pays[k].txn);
      }
    }
  }

  lemma HeldTurnStates(d: Docs, id: nat, d': Docs)
    requires WellFormed(d) && Stated(d) && id < |d.txns| && d.txns[id].status.Held?
    requires d' == d.(txns := d'.txns) && |d'.txns| == |d.txns|
    requires forall x :: 0 <= x < |d.txns| && x != id
               ==> d'.txns[x].branch == d.txns[x].branch && d'.txns[x].deleted == d.txns[x].deleted
    ensures Stated(d')
  {
    forall k | 0 <= k < |d'.pays|
      ensures RowStated(d', d'.pays[k])
    {
      assert RowStated(d, d.pays[k]) && PayOk(d, d.pays[k]);
    }
  }

  lemma CarriedRows(d: Docs, d': Docs)
    requires Stated(d) && d'.transfers == d.transfers && d.accounts <= d'.accounts && |d'.pays| == |d.pays|
    requires forall k :: 0 <= k < |d.pays| ==> d'.pays[k] == d.pays[k].(slip := d'.pays[k].slip)
    requires |d'.txns| >= |d.txns|
             && forall x :: 0 <= x < |d.txns|
                  ==> d'.txns[x].branch == d.txns[x].branch && d'.txns[x].deleted == d.txns[x].deleted
    ensures Stated(d')
  {
    forall k | 0 <= k < |d'.pays| ensures RowStated(d', d'.pays[k]) { assert RowStated(d, d.pays[k]); }
  }

  lemma DocumentStepStates(d: Docs, st: Step)
    requires WellFormed(d) && Stated(d) && Local(d, st) && Allowed(d, st) && (st.DoCreate? || st.DoResume?)
    ensures Stated(Next(d, st))
  {
    hide WellFormed;
    match st
    case DoCreate(f) =>
      InsertKeepsWellFormed(d, f);
      CarriedRows(d, Inserted(d, f));
      if !f.OnHold() { PostStates(Inserted(d, f), |d.txns|, KeptPayments(f), f.allocations); }
    case DoResume(id, edit, ps) =>
      ChargeIsFresh(d, id, edit, ps);
      CarriedRows(d, Charged(d, id, edit, ps));
      PostStates(Charged(d, id, edit, ps), id, ps, []);
  }

  lemma BinStepStates(d: Docs, st: Step)
    requires WellFormed(d) && Stated(d) && Allowed(d, st) && (st.DoDelete? || st.DoRestore?)
    ensures Stated(Next(d, st))
  {
    var id, d' := st.id, Next(d, st);
    if d.txns[id].status.Held? {
      HeldTurnStates(d, id, d');
    } else {
      TurnStates(d, id, if st.DoDelete? then -1 else 1, d');
    }
  }

  lemma NextStates(d: Docs, st: Step)
    requires WellFormed(d) && Stated(d) && Local(d, st)
    ensures Stated(Next(d, st))
  {
    if Allowed(d, st) {
      if st.DoCreate? || st.DoResume? {
        DocumentStepStates(d, st);
      } else if OnDocument(st) {
        BinStepStates(d, st);
      } else if !st.DoTransfer? {
        hide WellFormed;
        CarriedRows(d, Next(d, st));
      }
    }
  }

  /** After every run in which money stays within its branch, each account's statement adds up to
      its balance less its opening and its loan legs. */
  lemma {:induction false} StatementsReconcile(d: Docs, steps: seq<Step>)
    requires WellFormed(d) && Stated(d)
    requires forall n {:trigger steps[n]} :: 0 <= n < |steps| ==> Local(Run(d, steps[..n]), steps[n])
    ensures var d' := Run(d, steps);
            && WellFormed(d') && Stated(d')
            && forall a: nat :: a < |d'.accounts|
                 ==> StatementTotal(d', a) == AccountDue(d', a) - d'.accounts[a].opening - Sum(d'.loans, LoanMoney(a))
  {
    hide WellFormed, Stated, Local, Next, StatementTotal;
    if |steps| > 0 {
      var n := |steps| - 1;
      var init := steps[..n];
      forall m | 0 <= m < n
        ensures Local(Run(d, init[..m]), init[m])
      {
        assert init[..m] == steps[..m] && init[m] == steps[m];
      }
      StatementsReconcile(d, init);
      assert Local(Run(d, steps[..n]), steps[n]);
      NextKeepsWellFormed(Run(d, init), steps[n]);
      NextStates(Run(d, init), steps[n]);
    }
    StatementsAddUp(Run(d, steps));
  }

  lemma StatementsAddUp(d: Docs)
    requires WellFormed(d) && Stated(d)
    ensures forall a: nat :: a < |d.accounts|
              ==> StatementTotal(d, a) == AccountDue(d, a) - d.accounts[a].opening - Sum(d.loans, LoanMoney(a))
  {
    forall k | 0 <= k < |d.pays|
      ensures d.pays[k].txn < |d.txns| && InStep(d, d.pays[k])
    {
      assert RowStated(d, d.pays[k]);
    }
    forall a: nat | a < |d.accounts|
      ensures StatementTotal(d, a) == AccountDue(d, a) - d.accounts[a].opening - Sum(d.loans, LoanMoney(a))
    {
      StatementExplainsBalance(d, a);
    }
  }

  // ----- Stock and warehouses -----

  /** A document that moves tracked stock belongs to a branch, and so to a warehouse. */
  predicate Sited(items: seq<Item>, t: Txn) {
    t.branch.Some? || StockEffect(t.kind) == 0 || !HasTracked(items, t.lines)
  }

  ghost predicate Shelved(d: Docs) {
    && |d.warehouses| > 0
    && (forall x {:trigger d.txns[x]} :: 0 <= x < |d.txns| ==> Sited(d.items, d.txns[x]))
    && (forall i: nat {:trigger OpGap(i)} :: Sum(d.stockOps, OpGap(i)) == 0.0)
  }

  /** Every stock movement names a branch, opening stock is placed, and moves are between two
      different warehouses. */
  ghost predicate Placed(d: Docs, st: Step) {
    match st
    case DoCreate(f) => Sited(d.items, NewTxn(f))
    case DoResume(id, edit, ps) => id < |d.txns| ==> Sited(d.items, Edited(d.txns[id], edit))
    case DoItem(x, stock, branch) => stock == 0.0 || x.service || (stock > 0.0 && x.trackStock && branch.Some?)
    case DoAdjust(i, quantity, reduce, branch) => branch.Some?
    case DoMove(i, from, to, quantity) => from != to || quantity == 0.0
    case _ => true
  }

  lemma ShelvedRows(d: Docs, d': Docs)
    requires Shelved(d) && d'.items == d.items && d'.stockOps == d.stockOps && |d'.warehouses| >= |d.warehouses|
    requires |d'.txns| >= |d.txns|
             && forall x :: 0 <= x < |d.txns|
                  ==> d'.txns[x].branch == d.txns[x].branch && d'.txns[x].kind == d.txns[x].kind
                      && d'.txns[x].lines == d.txns[x].lines
    requires forall x {:trigger d'.txns[x]} :: |d.txns| <= x < |d'.txns| ==> Sited(d'.items, d'.txns[x])
    ensures Shelved(d')
  {
    forall x | 0 <= x < |d'.txns|
      ensures Sited(d'.items, d'.txns[x])
    {
      if x < |d.txns| { assert Sited(d.items, d.txns[x]); }
    }
  }

  lemma PostShelves(d: Docs, id: nat, ps: seq<PayIn>, als: seq<AllocIn>)
    requires Fresh(d, id) && Shelved(d)
    ensures Shelved(Post(d, id, ps, als))
  {
    var d' := Post(d, id, ps, als);
    MoreWarehouses(d, id);
    forall x | 0 <= x < |d.txns| ensures SameFigures(d.txns[id := PostedTxn(d, id, ps)][x], d'.txns[x]) { }
    ShelvedRows(d, d');
  }

  lemma TurnShelves(d: Docs, id: nat, d': Docs)
    requires WellFormed(d) && Shelved(d) && id < |d.txns| && (d' == Delete(d, id) || d' == Restore(d, id))
    ensures Shelved(d')
  {
    UnpostTurns(d, id);
    RepostTurns(d, id);
    MoreWarehouses(d, id);
    ShelvedRows(d, d');
  }

  lemma NextShelvesDocument(d: Docs, st: Step)
    requires WellFormed(d) && Shelved(d) && Placed(d, st) && Allowed(d, st)
    requires st.DoCreate? || st.DoResume? || st.DoDelete? || st.DoRestore?
    ensures Shelved(Next(d, st))
  {
    match st
    case DoCreate(f) =>
      InsertKeepsWellFormed(d, f);
      ShelvedRows(d, Inserted(d, f));
      if !f.OnHold() { PostShelves(Inserted(d, f), |d.txns|, KeptPayments(f), f.allocations); }
    case DoResume(id, edit, ps) =>
      ChargeIsFresh(d, id, edit, ps);
      var d1 := Charged(d, id, edit, ps);
      forall x | 0 <= x < |d1.txns| ensures Sited(d1.items, d1.txns[x]) { assert Sited(d.items, d.txns[x]); }
      PostShelves(d1, id, ps, []);
    case DoDelete(id) => TurnShelves(d, id, Delete(d, id));
    case DoRestore(id) => TurnShelves(d, id, Restore(d, id));
  }

  /** Stock changes whose gaps cancel keep every item's stock on the shelves. */
  lemma OpsShelve(d: Docs, d': Docs, os: seq<StockOp>)
    requires Shelved(d) && d' == d.(warehouses := d'.warehouses, stockOps := d.stockOps + os) && |d'.warehouses| > 0
    requires forall i: nat {:trigger OpGap(i)} :: Sum(os, OpGap(i)) == 0.0
    ensures Shelved(d')
  {
    forall i: nat ensures Sum(d'.stockOps, OpGap(i)) == 0.0 { SumConcat(d.stockOps, os, OpGap(i)); }
  }

  lemma OneOpGap(o: StockOp)
    requires o.quantity == 0.0 || o.counted == o.warehouse.Some?
    ensures forall i: nat {:trigger OpGap(i)} :: Sum([o], OpGap(i)) == 0.0
  {
    forall i: nat ensures Sum([o], OpGap(i)) == 0.0 { SumZero([o], OpGap(i)); }
  }

  lemma ItemShelves(d: Docs, x: Item, opening: real, branch: Option<nat>)
    requires WellFormed(d) && Shelved(d) && ItemOk(x) && Placed(d, DoItem(x, opening, branch))
    ensures Shelved(AddItem(d, x, opening, branch))
  {
    var d1 := d.(items := d.items + [CleanItem(x)]);
    var d' := AddItem(d, x, opening, branch);
    forall t | 0 <= t < |d1.txns| ensures Sited(d1.items, d1.txns[t]) {
      assert Sited(d.items, d.txns[t]);
      SameTracked(d, CleanItem(x), t);
    }
    if branch.Some? { HomeStable(d.warehouses, branch.value, 0); }
    OneOpGap(d'.stockOps[|d.stockOps|]);
    OpsShelve(d1, d', [d'.stockOps[|d.stockOps|]]);
  }

  lemma MoveGap(i: nat, from: nat, to: nat, quantity: real)
    ensures forall j: nat {:trigger OpGap(j)} ::
              Sum([StockOp(i, Some(from), -quantity, false), StockOp(i, Some(to), quantity, false)], OpGap(j)) == 0.0
  {
    var leave, enter := StockOp(i, Some(from), -quantity, false), StockOp(i, Some(to), quantity, false);
    forall j: nat ensures Sum([leave, enter], OpGap(j)) == 0.0 {
      assert [leave, enter] == [leave] + [enter];
      SumAppend([leave], enter, OpGap(j));
      SumAppend([], leave, OpGap(j));
    }
  }

  lemma NextShelves(d: Docs, st: Step)
    requires WellFormed(d) && Shelved(d) && Placed(d, st)
    ensures Shelved(Next(d, st))
  {
    if Allowed(d, st) {
      match st
      case DoItem(x, stock, branch) => ItemShelves(d, x, stock, branch);
      case DoAdjust(i, quantity, reduce, branch) =>
        HomeStable(d.warehouses, branch.value, branch.value);
        var d' := Next(d, st);
        OneOpGap(d'.stockOps[|d.stockOps|]);
        OpsShelve(d, d', [d'.stockOps[|d.stockOps|]]);
      case DoAdjustAt(i, w, change) =>
        OneOpGap(StockOp(i, Some(w), change, true));
        OpsShelve(d, Next(d, st), [StockOp(i, Some(w), change, true)]);
      case DoMove(i, from, to, quantity) =>
        MoveGap(i, from, to, quantity);
        OneOpGap(StockOp(i, Some(to), 0.0, false));
        OpsShelve(d, Next(d, st), if from == to then [StockOp(i, Some(to), quantity, false)]
                                  else [StockOp(i, Some(from), -quantity, false),
                                        StockOp(i, Some(to), quantity, false)]);
      case DoCreate(_) => NextShelvesDocument(d, st);
      case DoResume(_, _, _) => NextShelvesDocument(d, st);
      case DoDelete(_) => NextShelvesDocument(d, st);
      case DoRestore(_) => NextShelvesDocument(d, st);
      case _ => ShelvedRows(d, Next(d, st));
    }
  }

  lemma NothingUnplaced(d: Docs, i: nat)
    requires Shelved(d)
    ensures Unplaced(d, i) == 0.0
  {
    forall x | 0 <= x < |d.txns| ensures Branchless(d.items, i)(d.txns[x]) == 0.0 {
      var t := d.txns[x];
      assert Sited(d.items, t);
      if t.branch.None? && StockEffect(t.kind) != 0 { NoTrackedNoDemand(d.items, t.lines, i); }
      if t.branch.None? {
        assert Moves(d.items, t, i) == 0.0;
        WeighZero(t.net);
        assert TxnStock(d.items, i)(t) == 0.0;
      }
      assert Branchless(d.items, i)(t) == 0.0;
    }
    SumZero(d.txns, Branchless(d.items, i));
  }

  /** After every run in which stock always has a warehouse to be at, each item's stock is the sum
      of its warehouse levels. */
  lemma {:induction false} StockReconciles(d: Docs, steps: seq<Step>)
    requires WellFormed(d) && Shelved(d)
    requires forall n {:trigger steps[n]} :: 0 <= n < |steps| ==> Placed(Run(d, steps[..n]), steps[n])
    ensures var d' := Run(d, steps);
            && WellFormed(d') && Shelved(d')
            && forall i: nat :: StockDue(d', i) == Over(|d'.warehouses|, LevelOver(d', i))
  {
    hide WellFormed, Shelved, Placed, Next, StockDue;
    if |steps| > 0 {
      var n := |steps| - 1;
      var init := steps[..n];
      forall m | 0 <= m < n
        ensures Placed(Run(d, init[..m]), init[m])
      {
        assert init[..m] == steps[..m] && init[m] == steps[m];
      }
      StockReconciles(d, init);
      assert Placed(Run(d, steps[..n]), steps[n]);
      NextKeepsWellFormed(Run(d, init), steps[n]);
      NextShelves(Run(d, init), steps[n]);
    }
    StockAddsUp(Run(d, steps));
  }

  lemma StockAddsUp(d: Docs)
    requires WellFormed(d) && Shelved(d)
    ensures forall i: nat :: StockDue(d, i) == Over(|d.warehouses|, LevelOver(d, i))
  {
    forall i: nat ensures StockDue(d, i) == Over(|d.warehouses|, LevelOver(d, i)) {
      NothingUnplaced(d, i);
      StockIsLevelsPlusUnplaced(d, i);
    }
  }
}
