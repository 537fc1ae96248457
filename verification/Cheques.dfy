/** Settling and reopening cheques from several places at once, while their documents are deleted and restored. */
module Cheques {
  import opened Wrappers
  import opened Sums

  /** A cheque's amount is positive if received, negative if given.  It is gone once its document is deleted. */
  datatype Cheque = Cheque(amount: real, account: Option<nat>, gone: bool)

  /** Requests past their first look: settle into an account, or reopen out of the account seen. */
  datatype Request = Settling(cheque: nat, into: nat) | Reopening(cheque: nat, seen: nat) | Over

  datatype World = World(balances: seq<real>, cheques: seq<Cheque>, requests: seq<Request>)

  /** Deleting a document drops its cheque and takes back what it brought in; restoring makes a fresh one. */
  datatype Event =
    | LookSettle(cheque: nat, into: nat) | LookReopen(cheque: nat) | Commit(r: nat)
    | Drop(cheque: nat) | Renew(cheque: nat)

  predicate Enabled(w: World, e: Event) {
    match e
    case LookSettle(c, a) => c < |w.cheques| && a < |w.balances| && w.cheques[c].account.None? && !w.cheques[c].gone
    case LookReopen(c) => c < |w.cheques| && w.cheques[c].account.Some?
    case Commit(r) => r < |w.requests| && !w.requests[r].Over?
    case Drop(c) => c < |w.cheques| && !w.cheques[c].gone
    case Renew(c) => c < |w.cheques| && w.cheques[c].gone
  }

  function Step(w: World, e: Event): World
    requires Enabled(w, e) && RefsOk(w)
  {
    match e
    case LookSettle(c, a) => w.(requests := w.requests + [Settling(c, a)])
    case LookReopen(c) => w.(requests := w.requests + [Reopening(c, w.cheques[c].account.value)])
    case Commit(r) => Committed(w, w.requests[r]).(requests := w.requests[r := Over])
    case Drop(c) =>
      var cheque := w.cheques[c];
      var kept := w.(cheques := w.cheques[c := Cheque(cheque.amount, None, true)]);
      if cheque.account.Some? then Moved(kept, cheque.account.value, -cheque.amount) else kept
    case Renew(c) => w.(cheques := w.cheques + [Cheque(w.cheques[c].amount, None, false)])
  }

  function Moved(w: World, a: nat, change: real): World
    requires a < |w.balances|
  {
    w.(balances := w.balances[a := w.balances[a] + change])
  }

  /** Settling and reopening go through if the cheque is still there, open or settled as it was seen. */
  function Committed(w: World, q: Request): World
    requires RequestOk(w, q)
  {
    match q
    case Settling(c, a) =>
      if w.cheques[c].account.None? && !w.cheques[c].gone then
        Moved(w.(cheques := w.cheques[c := w.cheques[c].(account := Some(a))]), a, w.cheques[c].amount)
      else w
    case Reopening(c, seen) =>
      if w.cheques[c].account.Some? then
        Moved(w.(cheques := w.cheques[c := w.cheques[c].(account := None)]), seen, -w.cheques[c].amount)
      else w
    case Over => w
  }

  predicate RefsOk(w: World) {
    && (forall c :: 0 <= c < |w.cheques| && w.cheques[c].account.Some? ==> w.cheques[c].account.value < |w.balances|)
    && (forall r :: 0 <= r < |w.requests| ==> RequestOk(w, w.requests[r]))
  }

  predicate RequestOk(w: World, q: Request) {
    match q
    case Settling(c, a) => c < |w.cheques| && a < |w.balances|
    case Reopening(c, a) => c < |w.cheques| && a < |w.balances|
    case Over => true
  }

  function Itself(): real -> real { (x: real) => x }

  /** What settled cheques have brought in altogether. */
  function Settled(): Cheque -> real { (c: Cheque) => if c.account.Some? then c.amount else 0.0 }

  function SettledAt(a: nat): Cheque -> real { (c: Cheque) => if c.account == Some(a) then c.amount else 0.0 }

  function Rest(w: World): real { Sum(w.balances, Itself()) - Sum(w.cheques, Settled()) }

  lemma StepKeepsRest(w: World, e: Event)
    requires Enabled(w, e) && RefsOk(w)
    ensures RefsOk(Step(w, e)) && Rest(Step(w, e)) == Rest(w)
    ensures |Step(w, e).balances| == |w.balances| && |Step(w, e).cheques| >= |w.cheques|
  {
    var w' := Step(w, e);
    match e {
      case Commit(r) => CommitKeepsRest(w, w.requests[r]);
      case Drop(c) =>
        SumUpdate(w.cheques, c, w'.cheques[c], Settled());
        if w.cheques[c].account.Some? {
          var a := w.cheques[c].account.value;
          SumUpdate(w.balances, a, w'.balances[a], Itself());
        }
      case Renew(c) => SumAppend(w.cheques, Cheque(w.cheques[c].amount, None, false), Settled());
      case _ =>
    }
    forall r | 0 <= r < |w'.requests|
      ensures RequestOk(w', w'.requests[r])
    {
      if r < |w.requests| { assert RequestOk(w, w.requests[r]); }
    }
  }

  lemma CommitKeepsRest(w: World, q: Request)
    requires RefsOk(w) && RequestOk(w, q)
    ensures Rest(Committed(w, q)) == Rest(w)
  {
    match q
    case Settling(c, a) =>
      if w.cheques[c].account.None? && !w.cheques[c].gone { MoveKeepsRest(w, a, w.cheques[c].amount, c, Some(a)); }
    case Reopening(c, a) => if w.cheques[c].account.Some? { MoveKeepsRest(w, a, -w.cheques[c].amount, c, None); }
    case Over =>
  }

  lemma MoveKeepsRest(w: World, a: nat, change: real, c: nat, account: Option<nat>)
    requires a < |w.balances| && c < |w.cheques| && w.cheques[c].account.Some? != account.Some?
    requires change == if account.Some? then w.cheques[c].amount else -w.cheques[c].amount
    ensures Rest(Moved(w.(cheques := w.cheques[c := w.cheques[c].(account := account)]), a, change)) == Rest(w)
  {
    SumUpdate(w.balances, a, w.balances[a] + change, Itself());
    SumUpdate(w.cheques, c, w.cheques[c].(account := account), Settled());
  }

  function Play(w: World, events: seq<Event>): (w': World)
    requires RefsOk(w)
    ensures RefsOk(w') && |w'.balances| == |w.balances| && |w'.cheques| >= |w.cheques|
  {
    if |events| == 0 then w
    else
      var before := Play(w, events[..|events| - 1]);
      var e := events[|events| - 1];
      if Enabled(before, e) then
        StepKeepsRest(before, e);
        Step(before, e)
      else before
  }

  /** Under every interleaving, deletions and restorings of the documents included, all accounts together hold a
      cheque's amount exactly while it is settled: settling or reopening it twice at once counts once. */
  lemma {:induction false} MoneyInExactlyWhileSettled(w: World, events: seq<Event>)
    requires RefsOk(w)
    ensures Sum(Play(w, events).balances, Itself()) - Sum(w.balances, Itself())
         == Sum(Play(w, events).cheques, Settled()) - Sum(w.cheques, Settled())
  {
    if |events| > 0 {
      var before := Play(w, events[..|events| - 1]);
      MoneyInExactlyWhileSettled(w, events[..|events| - 1]);
      if Enabled(before, events[|events| - 1]) { StepKeepsRest(before, events[|events| - 1]); }
    }
  }

  /** Each account by itself keeps step with the cheques settled into it unless a reopening takes the
      money out of another account than the one the cheque has meanwhile been settled into. */
  lemma CommitKeepsAccountsExactlyWhen(w: World, r: nat)
    requires RefsOk(w) && Enabled(w, Commit(r))
    requires w.requests[r].Reopening? && w.cheques[w.requests[r].cheque].account.Some?
             && w.cheques[w.requests[r].cheque].amount != 0.0
    ensures (forall a: nat :: a < |w.balances| ==> AccountRest(Step(w, Commit(r)), a) == AccountRest(w, a))
            <==> w.cheques[w.requests[r].cheque].account == Some(w.requests[r].seen)
  {
    var q, w' := w.requests[r], Step(w, Commit(r));
    assert RequestOk(w, q);
    var c := w.cheques[q.cheque];
    forall a: nat | a < |w.balances|
      ensures AccountRest(w', a)
              == AccountRest(w, a) - (if a == q.seen then c.amount else 0.0)
                 + (if c.account == Some(a) then c.amount else 0.0)
    {
      SumUpdate(w.cheques, q.cheque, c.(account := None), SettledAt(a));
    }
    if c.account != Some(q.seen) { assert AccountRest(w', q.seen) != AccountRest(w, q.seen); }
  }

  function AccountRest(w: World, a: nat): real
    requires a < |w.balances|
  {
    w.balances[a] - Sum(w.cheques, SettledAt(a))
  }

  // ----- Each account over whole runs -----

  ghost predicate AccountsKept(w: World, w': World) {
    |w'.balances| == |w.balances| && forall a: nat :: a < |w.balances| ==> AccountRest(w', a) == AccountRest(w, a)
  }

  /** A reopening that takes money out takes it out of the account the cheque is settled into. */
  predicate InTime(w: World, e: Event)
    requires RefsOk(w)
  {
    e.Commit? && Enabled(w, e) ==>
      match w.requests[e.r]
      case Reopening(c, seen) =>
        c < |w.cheques| && w.cheques[c].account.Some? && w.cheques[c].amount != 0.0
        ==> w.cheques[c].account == Some(seen)
      case _ => true
  }

  lemma SettlingKeepsAccounts(w: World, r: nat)
    requires RefsOk(w) && Enabled(w, Commit(r)) && w.requests[r].Settling?
    ensures AccountsKept(w, Step(w, Commit(r)))
  {
    var q := w.requests[r];
    assert RequestOk(w, q);
    var c := w.cheques[q.cheque];
    forall a: nat | a < |w.balances| ensures AccountRest(Step(w, Commit(r)), a) == AccountRest(w, a) {
      SumUpdate(w.cheques, q.cheque, c.(account := Some(q.into)), SettledAt(a));
    }
  }

  lemma IdleReopeningKeepsAccounts(w: World, r: nat)
    requires RefsOk(w) && Enabled(w, Commit(r)) && w.requests[r].Reopening?
    requires w.requests[r].cheque < |w.cheques|
    requires w.cheques[w.requests[r].cheque].account.None? || w.cheques[w.requests[r].cheque].amount == 0.0
    ensures AccountsKept(w, Step(w, Commit(r)))
  {
    var q := w.requests[r];
    assert RequestOk(w, q);
    var c := w.cheques[q.cheque];
    forall a: nat | a < |w.balances| ensures AccountRest(Step(w, Commit(r)), a) == AccountRest(w, a) {
      SumUpdate(w.cheques, q.cheque, c.(account := None), SettledAt(a));
    }
  }

  /** Deleting and restoring a document keep every account. */
  lemma DocumentsKeepAccounts(w: World, e: Event)
    requires RefsOk(w) && Enabled(w, e) && (e.Drop? || e.Renew?)
    ensures AccountsKept(w, Step(w, e))
  {
    forall a: nat | a < |w.balances| ensures AccountRest(Step(w, e), a) == AccountRest(w, a) {
      if e.Drop? {
        SumUpdate(w.cheques, e.cheque, Step(w, e).cheques[e.cheque], SettledAt(a));
      } else {
        SumAppend(w.cheques, Cheque(w.cheques[e.cheque].amount, None, false), SettledAt(a));
      }
    }
  }

  lemma StepKeepsAccountsExactlyWhen(w: World, e: Event)
    requires RefsOk(w) && Enabled(w, e)
    ensures AccountsKept(w, Step(w, e)) <==> InTime(w, e)
  {
    StepKeepsRest(w, e);
    if e.Commit? {
      assert RequestOk(w, w.requests[e.r]);
      match w.requests[e.r]
      case Settling(_, _) => SettlingKeepsAccounts(w, e.r);
      case Reopening(c, _) =>
        if w.cheques[c].account.None? || w.cheques[c].amount == 0.0 {
          IdleReopeningKeepsAccounts(w, e.r);
        } else {
          CommitKeepsAccountsExactlyWhen(w, e.r);
        }
      case Over =>
    } else if e.Drop? || e.Renew? {
      DocumentsKeepAccounts(w, e);
    }
  }

  /** After every event of the run, the last one included. */
  ghost predicate AlwaysKept(w: World, events: seq<Event>)
    requires RefsOk(w)
  {
    |events| > 0 ==> AlwaysKept(w, events[..|events| - 1]) && AccountsKept(w, Play(w, events))
  }

  /** At every event of the run. */
  ghost predicate AlwaysInTime(w: World, events: seq<Event>)
    requires RefsOk(w)
  {
    |events| > 0 ==>
      AlwaysInTime(w, events[..|events| - 1]) && InTime(Play(w, events[..|events| - 1]), events[|events| - 1])
  }

  /** One more event after accounts that kept step. */
  lemma NextKept(w: World, before: World, e: Event)
    requires RefsOk(before) && AccountsKept(w, before)
    ensures var after := if Enabled(before, e) then Step(before, e) else before;
            AccountsKept(w, after) <==> InTime(before, e)
  {
    if Enabled(before, e) {
      StepKeepsAccountsExactlyWhen(before, e);
      StepKeepsRest(before, e);
    }
  }

  /** Over every interleaving each account keeps step with the cheques settled into it all the way, if and
      only if every reopening that takes money out finds the cheque in the account it saw. */
  lemma {:induction false} AccountsKeptExactlyWhen(w: World, events: seq<Event>)
    requires RefsOk(w)
    ensures AlwaysKept(w, events) <==> AlwaysInTime(w, events)
  {
    hide AccountsKept, InTime, RefsOk, Step, Enabled;
    if |events| > 0 {
      var init := events[..|events| - 1];
      AccountsKeptExactlyWhen(w, init);
      if AlwaysKept(w, init) {
        LastKept(w, init);
        NextKept(w, Play(w, init), events[|events| - 1]);
      }
    }
  }

  lemma LastKept(w: World, events: seq<Event>)
    requires RefsOk(w) && AlwaysKept(w, events)
    ensures AccountsKept(w, Play(w, events))
  {
  }

  // ----- A stale reopening -----

  /** Settled into one account; two people look to reopen it; one does, and it is settled into the
      other account; then the second reopening commits, and takes the money from the wrong one. */
  function StaleEvent(n: nat): Event
    requires n < 8
  {
    match n
    case 0 => LookSettle(0, 0)
    case 1 => Commit(0)
    case 2 => LookReopen(0)
    case 3 => LookReopen(0)
    case 4 => Commit(1)
    case 5 => LookSettle(0, 1)
    case 6 => Commit(3)
    case _ => Commit(2)
  }

  function StaleRun(n: nat): (es: seq<Event>)
    requires n <= 8
    ensures |es| == n
  {
    if n == 0 then [] else StaleRun(n - 1) + [StaleEvent(n - 1)]
  }

  function StaleState(n: nat): World
    requires n <= 8
  {
    match n
    case 0 => World([0.0, 0.0], [Cheque(100.0, None, false)], [])
    case 1 => World([0.0, 0.0], [Cheque(100.0, None, false)], [Settling(0, 0)])
    case 2 => World([100.0, 0.0], [Cheque(100.0, Some(0), false)], [Over])
    case 3 => World([100.0, 0.0], [Cheque(100.0, Some(0), false)], [Over, Reopening(0, 0)])
    case 4 => World([100.0, 0.0], [Cheque(100.0, Some(0), false)], [Over, Reopening(0, 0), Reopening(0, 0)])
    case 5 => World([0.0, 0.0], [Cheque(100.0, None, false)], [Over, Over, Reopening(0, 0)])
    case 6 => World([0.0, 0.0], [Cheque(100.0, None, false)], [Over, Over, Reopening(0, 0), Settling(0, 1)])
    case 7 => World([0.0, 100.0], [Cheque(100.0, Some(1), false)], [Over, Over, Reopening(0, 0), Over])
    case _ => World([-100.0, 100.0], [Cheque(100.0, None, false)], [Over, Over, Over, Over])
  }

  predicate StaleStepGoes(n: nat)
    requires n < 8
  {
    RefsOk(StaleState(n)) && Enabled(StaleState(n), StaleEvent(n))
    && Step(StaleState(n), StaleEvent(n)) == StaleState(n + 1)
  }

  lemma StaleSteps(n: nat)
    requires n < 8
    ensures StaleStepGoes(n)
  {
  }

  lemma {:induction false} StalePlay(n: nat)
    requires n <= 8
    ensures Play(StaleState(0), StaleRun(n)) == StaleState(n)
  {
    if n > 0 {
      StalePlay(n - 1);
      assert StaleRun(n)[..n - 1] == StaleRun(n - 1);
      StaleSteps(n - 1);
      assert StaleStepGoes(n - 1);
    }
  }

  /** With no cheque settled in the end, one account is a hundred short and the other has it. */
  lemma StaleReopening()
    ensures var w := Play(StaleState(0), StaleRun(8)); w.balances == [-100.0, 100.0] && w.cheques[0].account.None?
  {
    StalePlay(8);
  }
}
