/** One key, one sale: however requests interleave, repeat or die half way. */
module ExactlyOnce {
  import opened Wrappers
  import opened OfflineSync

  /** No request ever puts a bill on hold under this key. */
  ghost predicate NoHold(w: World, k: Key) {
    forall r :: 0 <= r < |w.requests| ==> RequestNoHold(w.requests[r], k)
  }

  ghost predicate RequestNoHold(q: Request, k: Key) {
    forall j :: 0 <= j < |q.ops| ==> q.ops[j].Sale? && KeyOf(q, q.ops[j]) == Some(k) ==> !q.ops[j].hold
  }

  /** The request has the key's lock: it is between taking it and letting it go. */
  predicate Holding(w: World, r: nat, k: Key) {
    (SaleAt(w, r, Rechecking) || SaleAt(w, r, Creating) || SaleAt(w, r, Unlocking)) && CurrentKey(w, r) == Some(k)
  }

  ghost predicate LockKept(w: World, r: nat, k: Key) {
    Holding(w, r, k) ==> k in w.locks && w.locks[k] == r && (SaleAt(w, r, Creating) ==> !HasBill(w.bills, k))
  }

  predicate OneBill(bills: seq<Bill>, k: Key) {
    forall i, j :: 0 <= i < j < |bills| ==> !(bills[i].key == Some(k) && bills[j].key == Some(k))
  }

  predicate NoneHeld(bills: seq<Bill>, k: Key) {
    forall i :: 0 <= i < |bills| && bills[i].key == Some(k) ==> !bills[i].held
  }

  ghost predicate Once(w: World, k: Key) {
    OneBill(w.bills, k) && NoneHeld(w.bills, k) && forall r: nat :: LockKept(w, r, k)
  }

  /** Requests keep their operations, so what a later world rules out an earlier one did too. */
  lemma NoHoldBefore(w: World, e: Event, k: Key)
    requires Enabled(w, e) && AttemptsListed(w) && NoHold(Step(w, e), k)
    ensures NoHold(w, k)
  {
    var w' := Step(w, e);
    forall r | 0 <= r < |w.requests| ensures RequestNoHold(w.requests[r], k) {
      assert RequestNoHold(w'.requests[r], k);
      assert w'.requests[r].ops == w.requests[r].ops && w'.requests[r].push == w.requests[r].push
             && w'.requests[r].device == w.requests[r].device;
    }
  }

  lemma HasBillKept(w: World, w': World, k: Key)
    requires |w'.bills| == |w.bills| && forall i :: 0 <= i < |w.bills| ==> w'.bills[i].key == w.bills[i].key
    ensures HasBill(w'.bills, k) ==> HasBill(w.bills, k)
  {
    if HasBill(w'.bills, k) {
      var i :| 0 <= i < |w'.bills| && w'.bills[i].key == Some(k);
      assert w.bills[i].key == Some(k);
    }
  }

  /** Making a bill: whoever does it for this key has the lock, saw no bill, and is alone. */
  lemma MakeOnce(w: World, r: nat, k: Key)
    requires AttemptsListed(w) && Enabled(w, Make(r)) && Once(w, k) && NoHold(w, k)
    ensures Once(Step(w, Make(r)), k)
  {
    var w' := Step(w, Make(r));
    assert LockKept(w, r, k) && RequestNoHold(w.requests[r], k);
    forall x: nat ensures LockKept(w', x, k) {
      assert LockKept(w, x, k);
      if x != r && Holding(w', x, k) { assert Holding(w, x, k); }
    }
    if CurrentKey(w, r) == Some(k) {
      forall i | 0 <= i < |w.bills| ensures w.bills[i].key != Some(k) { }
    }
  }

  /** Rechecking under the lock: no finalised bill for this key means no bill at all. */
  lemma RecheckOnce(w: World, r: nat, k: Key)
    requires AttemptsListed(w) && Enabled(w, Recheck(r)) && Once(w, k)
    ensures Once(Step(w, Recheck(r)), k)
  {
    var w' := Step(w, Recheck(r));
    forall x: nat ensures LockKept(w', x, k) {
      assert LockKept(w, x, k);
      if x == r && SaleAt(w', x, Creating) && CurrentKey(w, x) == Some(k) { NoFinalNoBill(w.bills, k); }
    }
  }

  predicate BillsAlone(e: Event) { ServerStep(e) && !e.Make? && !e.Recheck? }

  lemma ServerStepOnce(w: World, e: Event, k: Key)
    requires AttemptsListed(w) && Enabled(w, e) && Once(w, k) && BillsAlone(e)
    ensures Once(Step(w, e), k)
  {
    var w' := Step(w, e);
    assert w'.bills == w.bills;
    forall x: nat ensures LockKept(w', x, k) { assert LockKept(w, x, k); }
  }

  lemma OtherStepOnce(w: World, e: Event, k: Key)
    requires AttemptsListed(w) && Enabled(w, e) && Once(w, k) && !ServerStep(e)
    ensures Once(Step(w, e), k)
  {
    var w' := Step(w, e);
    HasBillKept(w, w', k);
    forall x: nat ensures LockKept(w', x, k) {
      assert LockKept(w, x, k);
      assert x < |w.requests| ==> w'.requests[x] == w.requests[x];
    }
  }

  lemma StepOnce(w: World, e: Event, k: Key)
    requires AttemptsListed(w) && Enabled(w, e) && Once(w, k) && NoHold(w, k)
    ensures Once(Step(w, e), k)
  {
    if e.Make? { MakeOnce(w, e.r, k); } else if e.Recheck? { RecheckOnce(w, e.r, k); }
    else if BillsAlone(e) { ServerStepOnce(w, e, k); } else { OtherStepOnce(w, e, k); }
  }

  lemma NoFinalNoBill(bills: seq<Bill>, k: Key)
    requires NoneHeld(bills, k) && !HasFinal(bills, k)
    ensures !HasBill(bills, k)
  {
  }

  lemma {:induction false} AlwaysOnce(events: seq<Event>, k: Key)
    requires Play(events).Some? && NoHold(Play(events).value, k)
    ensures Once(Play(events).value, k)
  {
    if |events| > 0 {
      var n := |events| - 1;
      NoHoldBefore(Play(events[..n]).value, events[n], k);
      AlwaysOnce(events[..n], k);
      StepOnce(Play(events[..n]).value, events[n], k);
    }
  }

  /** Two finalised sales under one key. */
  predicate SoldTwice(bills: seq<Bill>, k: Key) {
    exists i, j :: 0 <= i < j < |bills| && Final(bills[i], k) && Final(bills[j], k)
  }

  predicate Final(b: Bill, k: Key) { b.key == Some(k) && !b.held }

  /** A key under which nothing is put on hold never sells twice. */
  lemma NeverSoldTwice(events: seq<Event>, k: Key)
    requires Play(events).Some? && NoHold(Play(events).value, k)
    ensures !SoldTwice(Play(events).value.bills, k)
  {
    AlwaysOnce(events, k);
  }

  /** A queued sale with such a key that has left the queue has its finalised invoice, or its failure
      is on record. */
  lemma LeftQueueIsSold(events: seq<Event>, id: nat, k: Key)
    requires Play(events).Some? && NoHold(Play(events).value, k)
    requires var w := Play(events).value;
             id in w.enqueued && id !in w.queue && w.enqueued[id].Sale? && w.enqueued[id].key == Some(k)
    ensures HasFinal(Play(events).value.bills, k)
            || Entry(Play(events).value.enqueued[id], true) in Play(events).value.journal
  {
    var w := Play(events).value;
    NoRowIsLost(events);
    AlwaysOnce(events, k);
    assert RowSafe(w, id);
    if !HasFinal(w.bills, k) { NoFinalNoBill(w.bills, k); }
  }

  // ----- A key sent by one request -----

  predicate Sends(q: Request, j: nat, k: Key) { j < |q.ops| && q.ops[j].Sale? && KeyOf(q, q.ops[j]) == Some(k) }

  ghost predicate Brings(q: Request, k: Key) { exists j: nat :: Sends(q, j, k) }

  /** Among all requests there ever were, one at most sends anything under this key. */
  ghost predicate SentByOne(w: World, k: Key) {
    forall r, s :: 0 <= r < |w.requests| && 0 <= s < |w.requests| && Brings(w.requests[r], k)
        && Brings(w.requests[s], k)
      ==> r == s
  }

  /** It is about to make a bill under the key, having found none. */
  predicate Making(q: Request, k: Key) {
    Running(q) && Sends(q, q.at, k) && (q.stage.Locking? || q.stage.Rechecking? || q.stage.Creating?)
  }

  ghost predicate SentBefore(w: World, k: Key) { exists r :: 0 <= r < |w.requests| && Brings(w.requests[r], k) }

  ghost predicate Single(w: World, k: Key) {
    && OneBill(w.bills, k)
    && (HasBill(w.bills, k) ==>
          SentBefore(w, k) && forall r :: 0 <= r < |w.requests| ==> !Making(w.requests[r], k))
  }

  lemma BringsStays(q: Request, q': Request, k: Key)
    requires SameSender(q, q')
    ensures Brings(q, k) <==> Brings(q', k)
  {
    if j: nat :| Sends(q, j, k) { assert Sends(q', j, k); }
    if j: nat :| Sends(q', j, k) { assert Sends(q, j, k); }
  }

  lemma SentByOneBefore(w: World, e: Event, k: Key)
    requires Enabled(w, e) && AttemptsListed(w) && SentByOne(Step(w, e), k)
    ensures SentByOne(w, k)
    ensures SentBefore(w, k) ==>
              forall r :: |w.requests| <= r < |Step(w, e).requests| ==> !Brings(Step(w, e).requests[r], k)
  {
    hide Step, Enabled, Brings;
    var w' := Step(w, e);
    StepGrows(w, e);
    forall r | 0 <= r < |w.requests| ensures Brings(w.requests[r], k) <==> Brings(w'.requests[r], k) {
      BringsStays(w.requests[r], w'.requests[r], k);
    }
  }

  lemma SentStays(w: World, w': World, k: Key)
    requires Grows(w, w') && SentBefore(w, k)
    ensures SentBefore(w', k)
  {
    var r :| 0 <= r < |w.requests| && Brings(w.requests[r], k);
    BringsStays(w.requests[r], w'.requests[r], k);
  }

  lemma OwnStepStartsNothing(w: World, e: Event, k: Key)
    requires Enabled(w, e) && AttemptsListed(w) && ServerStep(e) && HasBill(w.bills, k) && !Making(w.requests[e.r], k)
    ensures !Making(Step(w, e).requests[e.r], k)
  {
    hide HasBill, HasFinal, Without;
  }

  lemma OthersStandStill(w: World, e: Event, r: nat)
    requires Enabled(w, e) && AttemptsListed(w) && r < |w.requests| && !(ServerStep(e) && e.r == r)
    ensures Step(w, e).requests[r] == w.requests[r]
  {
    hide HasBill, HasFinal, Without;
  }

  /** Once there is a bill, nobody starts to make one. */
  lemma NobodyStarts(w: World, e: Event, r: nat, k: Key)
    requires Enabled(w, e) && AttemptsListed(w) && HasBill(w.bills, k) && r < |w.requests| && !Making(w.requests[r], k)
    ensures !Making(Step(w, e).requests[r], k)
  {
    hide Making, Step, Enabled, HasBill;
    if ServerStep(e) && e.r == r { OwnStepStartsNothing(w, e, k); } else { OthersStandStill(w, e, r); }
  }

  lemma MakeSingle(w: World, r: nat, k: Key)
    requires AttemptsListed(w) && Enabled(w, Make(r)) && Single(w, k) && SentByOne(w, k)
    ensures Single(Step(w, Make(r)), k)
  {
    var w', q := Step(w, Make(r)), w.requests[r];
    StepGrows(w, Make(r));
    if CurrentKey(w, r) == Some(k) {
      assert Sends(q, q.at, k) && Making(q, k) && Brings(q, k);
      forall i | 0 <= i < |w.bills| ensures w.bills[i].key != Some(k) { }
      assert SentBefore(w, k);
      SentStays(w, w', k);
      forall x | 0 <= x < |w'.requests| ensures !Making(w'.requests[x], k) {
        if x != r && Making(w.requests[x], k) { assert Brings(w.requests[x], k); }
      }
    } else {
      OtherSingle(w, Make(r), k);
    }
  }

  lemma OtherSingle(w: World, e: Event, k: Key)
    requires AttemptsListed(w) && Enabled(w, e) && Single(w, k)
    requires e.Make? ==> CurrentKey(w, e.r) != Some(k)
    requires SentBefore(w, k) ==>
               forall r :: |w.requests| <= r < |Step(w, e).requests| ==> !Brings(Step(w, e).requests[r], k)
    ensures Single(Step(w, e), k)
  {
    var w' := Step(w, e);
    StepGrows(w, e);
    SameBills(w, e, k);
    if HasBill(w'.bills, k) {
      SentStays(w, w', k);
      forall r | 0 <= r < |w'.requests| ensures !Making(w'.requests[r], k) {
        if r < |w.requests| {
          NobodyStarts(w, e, r, k);
        } else {
          assert !Brings(w'.requests[r], k);
        }
      }
    }
  }

  lemma SameBills(w: World, e: Event, k: Key)
    requires AttemptsListed(w) && Enabled(w, e) && (e.Make? ==> CurrentKey(w, e.r) != Some(k))
    ensures OneBill(w.bills, k) ==> OneBill(Step(w, e).bills, k)
    ensures HasBill(Step(w, e).bills, k) ==> HasBill(w.bills, k)
  {
    var w' := Step(w, e);
    if HasBill(w'.bills, k) {
      var i :| 0 <= i < |w'.bills| && w'.bills[i].key == Some(k);
      assert i < |w.bills| && w.bills[i].key == Some(k);
    }
  }

  lemma {:induction false} AlwaysSingle(events: seq<Event>, k: Key)
    requires Play(events).Some? && SentByOne(Play(events).value, k)
    ensures Single(Play(events).value, k)
  {
    if |events| > 0 {
      hide Step, Enabled, Single;
      var n := |events| - 1;
      var w := Play(events[..n]).value;
      SentByOneBefore(w, events[n], k);
      AlwaysSingle(events[..n], k);
      if events[n].Make? { MakeSingle(w, events[n].r, k); } else { OtherSingle(w, events[n], k); }
    }
  }

  /** A key under which only one request ever sends anything never sells twice, however many operations of its
      batch go by it, on hold or not. */
  lemma SentByOneNeverSoldTwice(events: seq<Event>, k: Key)
    requires Play(events).Some? && SentByOne(Play(events).value, k)
    ensures !SoldTwice(Play(events).value.bills, k)
  {
    AlwaysSingle(events, k);
  }

  // ----- Two requests under one key -----

  ghost predicate BringsHold(q: Request, k: Key) { exists j: nat :: Sends(q, j, k) && q.ops[j].hold }

  /** These two requests, and no others, send something under the key. */
  ghost predicate SentThese(w: World, k: Key, a: Request, b: Request) {
    exists r, s :: 0 <= r < |w.requests| && 0 <= s < |w.requests| && r != s && AreThese(w, k, a, b, r, s)
  }

  ghost predicate AreThese(w: World, k: Key, a: Request, b: Request, r: nat, s: nat)
    requires r < |w.requests| && s < |w.requests|
  {
    && SameSender(a, w.requests[r]) && SameSender(b, w.requests[s])
    && forall x :: 0 <= x < |w.requests| && x != r && x != s ==> !Brings(w.requests[x], k)
  }

  /** One more event. */
  lemma Extend(events: seq<Event>, e: Event)
    requires Play(events).Some? && Enabled(Play(events).value, e)
    ensures Play(events + [e]) == Some(Step(Play(events).value, e))
  {
    assert (events + [e])[..|events|] == events;
  }

  /** Only the journal and request r have changed. */
  ghost predicate OnlyMoves(w: World, w': World, r: nat, q: Request) {
    && w'.bills == w.bills && w'.locks == w.locks && |w'.requests| == |w.requests| && r < |w.requests|
    && w'.requests == w.requests[r := q]
  }

  /** A push gets past an operation without making a bill: a sale of it fails for good. */
  lemma Skips(events: seq<Event>, r: nat) returns (after: seq<Event>)
    requires Play(events).Some? && At(Play(events).value, r, Checking) && Play(events).value.locks == map[]
    requires var q := Play(events).value.requests[r]; q.push && q.at + 1 < |q.ops|
    ensures Play(after).Some?
    ensures var w, w' := Play(events).value, Play(after).value;
            OnlyMoves(w, w', r, w.requests[r].(at := w.requests[r].at + 1))
  {
    var w := Play(events).value;
    if Current(w.requests[r]).Other? {
      Extend(events, Look(r));
      after := events + [Look(r)];
    } else {
      Extend(events, Fail(r, true));
      after := events + [Fail(r, true)];
      assert Without(w.locks, r) == map[];
      Extend(after, Record(r));
      after := after + [Record(r)];
    }
  }

  lemma {:induction false} SkipsTo(events: seq<Event>, r: nat, j: nat) returns (after: seq<Event>)
    requires Play(events).Some? && At(Play(events).value, r, Checking) && Play(events).value.locks == map[]
    requires var q := Play(events).value.requests[r]; q.push && q.at <= j < |q.ops|
    ensures Play(after).Some?
    ensures var w, w' := Play(events).value, Play(after).value; OnlyMoves(w, w', r, w.requests[r].(at := j))
    decreases j - Play(events).value.requests[r].at
  {
    var q := Play(events).value.requests[r];
    after := events;
    if q.at < j {
      after := Skips(events, r);
      after := SkipsTo(after, r, j);
    }
  }

  /** A request arrives and comes to an operation under the key, for which it finds no bill. */
  lemma Reaches(events: seq<Event>, q: Request, k: Key, j: nat) returns (after: seq<Event>)
    requires Play(events).Some? && Incoming(q) && Sends(q, j, k)
    requires !HasBill(Play(events).value.bills, k) && Play(events).value.locks == map[]
    ensures Play(after).Some?
    ensures var w, w' := Play(events).value, Play(after).value;
            && w'.bills == w.bills && w'.locks == map[]
            && w'.requests == w.requests + [q.(at := j, stage := Locking)]
  {
    var w := Play(events).value;
    var r := |w.requests|;
    Extend(events, Arrive(q));
    after := events + [Arrive(q)];
    if q.push {
      after := SkipsTo(after, r, j);
      Extend(after, Look(r));
      after := after + [Look(r)];
    } else {
      assert q.(at := j, stage := Locking) == q;
    }
  }

  predicate Waiting(q: Request, k: Key) { Running(q) && Sends(q, q.at, k) && q.stage.Locking? }

  /** A request that waits takes the lock and finds no finalised sale. */
  lemma Enters(events: seq<Event>, r: nat, k: Key) returns (after: seq<Event>)
    requires Play(events).Some?
    requires var w := Play(events).value;
             r < |w.requests| && Waiting(w.requests[r], k) && k !in w.locks && !HasFinal(w.bills, k)
    ensures Play(after).Some?
    ensures var w := Play(events).value;
            Play(after).value == w.(locks := w.locks[k := r],
                                    requests := w.requests[r := Goes(w.requests[r], Creating)])
  {
    Extend(events, Lock(r));
    after := events + [Lock(r)];
    Extend(after, Recheck(r));
    after := after + [Recheck(r)];
  }

  /** It then makes its bill and lets the lock go. */
  lemma Bills(events: seq<Event>, r: nat, k: Key) returns (after: seq<Event>)
    requires Play(events).Some?
    requires var w := Play(events).value;
             r < |w.requests| && Waiting(w.requests[r], k) && w.locks == map[] && !HasFinal(w.bills, k)
    ensures Play(after).Some?
    ensures var w, w' := Play(events).value, Play(after).value;
            && w'.bills == w.bills + [Bill(Some(k), Current(w.requests[r]).hold, false)] && w'.locks == map[]
            && |w'.requests| == |w.requests| && SameSender(w.requests[r], w'.requests[r])
            && forall x :: 0 <= x < |w.requests| && x != r ==> w'.requests[x] == w.requests[x]
  {
    hide HasFinal, Play;
    var w := Play(events).value;
    after := Enters(events, r, k);
    Extend(after, Make(r));
    after := after + [Make(r)];
    Extend(after, Unlock(r));
    after := after + [Unlock(r)];
    assert Without(w.locks[k := r], r) == map[];
  }

  lemma Charges(events: seq<Event>, b: nat) returns (after: seq<Event>)
    requires Play(events).Some? && b < |Play(events).value.bills|
    ensures Play(after).Some?
    ensures var w := Play(events).value;
            Play(after).value == w.(bills := w.bills[b := w.bills[b].(held := false)])
  {
    after := events;
    var w := Play(events).value;
    if w.bills[b].held {
      Extend(events, Resume(b));
      after := events + [Resume(b)];
    } else {
      assert w.bills[b := w.bills[b].(held := false)] == w.bills;
    }
  }

  /** A hold and another operation, of two requests: both come to make their bill before either has, neither
      finds a finalised sale, and what is on hold is then charged. */
  lemma HoldFirst(k: Key, hold: Request, i: nat, other: Request, j: nat) returns (events: seq<Event>)
    requires Incoming(hold) && Incoming(other) && Sends(hold, i, k) && Sends(other, j, k) && hold.ops[i].hold
    ensures Play(events).Some?
    ensures SentThese(Play(events).value, k, hold, other) && SoldTwice(Play(events).value.bills, k)
  {
    events := [];
    events := Reaches(events, hold, k, i);
    events := Reaches(events, other, k, j);
    var w := Play(events).value;
    assert w.requests == [hold.(at := i, stage := Locking), other.(at := j, stage := Locking)];
    events := Bills(events, 0, k);
    assert Play(events).value.bills == [Bill(Some(k), true, false)];
    events := Bills(events, 1, k);
    var bills := Play(events).value.bills;
    assert bills == [Bill(Some(k), true, false), Bill(Some(k), other.ops[j].hold, false)];
    events := Charges(events, 0);
    events := Charges(events, 1);
    var last := Play(events).value;
    assert SameSender(hold, last.requests[0]) && SameSender(other, last.requests[1]);
    assert AreThese(last, k, hold, other, 0, 1);
    assert Final(last.bills[0], k) && Final(last.bills[1], k);
  }

  /** Whatever the two requests are, online or pushed in batches: if one brings a hold under the key and the
      other anything, they can end in two finalised sales. */
  lemma HoldsCanSellTwice(k: Key, a: Request, b: Request) returns (events: seq<Event>)
    requires Incoming(a) && Incoming(b) && Brings(a, k) && Brings(b, k) && (BringsHold(a, k) || BringsHold(b, k))
    ensures Play(events).Some?
    ensures SentThese(Play(events).value, k, a, b) && SoldTwice(Play(events).value.bills, k)
  {
    if i: nat :| Sends(a, i, k) && a.ops[i].hold {
      var j: nat :| Sends(b, j, k);
      events := HoldFirst(k, a, i, b, j);
    } else {
      var i: nat :| Sends(b, i, k) && b.ops[i].hold;
      var j: nat :| Sends(a, j, k);
      events := HoldFirst(k, b, i, a, j);
      SentTheseSwaps(Play(events).value, k, b, a);
    }
  }

  lemma SentTheseSwaps(w: World, k: Key, a: Request, b: Request)
    requires SentThese(w, k, a, b)
    ensures SentThese(w, k, b, a)
  {
    var r, s :| 0 <= r < |w.requests| && 0 <= s < |w.requests| && r != s && AreThese(w, k, a, b, r, s);
    assert AreThese(w, k, b, a, s, r);
  }

  lemma NeitherHolds(w: World, k: Key, a: Request, b: Request)
    requires !BringsHold(a, k) && !BringsHold(b, k) && SentThese(w, k, a, b)
    ensures NoHold(w, k)
  {
    var r, s :| 0 <= r < |w.requests| && 0 <= s < |w.requests| && r != s && AreThese(w, k, a, b, r, s);
    forall x | 0 <= x < |w.requests| ensures RequestNoHold(w.requests[x], k) {
      forall j | 0 <= j < |w.requests[x].ops| && Sends(w.requests[x], j, k) ensures !w.requests[x].ops[j].hold {
        assert Brings(w.requests[x], k);
        if x == r { assert Sends(a, j, k); } else { assert Sends(b, j, k); }
      }
    }
  }

  /** Two requests that send under one key can end in two finalised sales if and only if at least one of the
      operations they send under it is a hold. */
  lemma SellsTwiceExactlyWhen(k: Key, a: Request, b: Request)
    requires Incoming(a) && Incoming(b) && Brings(a, k) && Brings(b, k)
    ensures (exists events :: Play(events).Some? && SentThese(Play(events).value, k, a, b)
                              && SoldTwice(Play(events).value.bills, k))
            <==> BringsHold(a, k) || BringsHold(b, k)
  {
    if BringsHold(a, k) || BringsHold(b, k) {
      var events := HoldsCanSellTwice(k, a, b);
    } else {
      forall events | Play(events).Some? && SentThese(Play(events).value, k, a, b)
        ensures !SoldTwice(Play(events).value.bills, k)
      {
        NeitherHolds(Play(events).value, k, a, b);
        NeverSoldTwice(events, k);
      }
    }
  }
}
