/** For any requests at all, returns of a kind of goods, linked and unlinked, exceed what was sold of it
    by no more than one slack per line. */
module GoodsBound {
  import opened Sums
  import opened Refunds
  import opened Returns
  import opened OverReturn

  /** The slack of the first k lines with this signature. */
  function SlackFor(lines: seq<SoldLine>, s: Signature, k: nat, most: nat): real
    requires k <= |lines|
  {
    if k == 0 then 0.0 else SlackFor(lines, s, k - 1, most) + (if LineSig(lines[k - 1]) == s then Slack(most) else 0.0)
  }

  ghost predicate GoodsWithin(bill: Bill, notes: seq<Note>, most: nat) {
    forall s :: GoodsBounded(bill, notes, s, most)
  }

  predicate GoodsBounded(bill: Bill, notes: seq<Note>, s: Signature, most: nat) {
    AllReturned(bill, notes, s) <= Sold(bill.lines, s, |bill.lines|) + SlackFor(bill.lines, s, |bill.lines|, most)
  }

  // ----- A return -----

  lemma {:induction false} StoredNotNegative(asks: seq<Ask>, i: nat)
    ensures StoredAsked(asks, i) >= 0.0
  {
    if |asks| > 0 {
      StoredNotNegative(asks[..|asks| - 1], i);
      StoringRounds(asks[|asks| - 1].quantity);
    }
  }

  /** What is no more than the tolerance is stored as nothing. */
  lemma {:induction false} CrumbsAreNotStored(asks: seq<Ask>, i: nat)
    requires Asked(asks, i) <= EPS
    ensures StoredAsked(asks, i) == 0.0
  {
    if |asks| > 0 {
      var n := |asks| - 1;
      StoredIsNearAsked(asks[..n], i);
      CrumbsAreNotStored(asks[..n], i);
      if asks[n].line == i && asks[n].quantity > 0.0 {
        assert (asks[n].quantity * 1000.0 + 0.5).Floor == 0;
      }
    }
  }

  /** A line that something is stored for has room left, so all unlinked returns have found a line by then. */
  lemma StoredMeansRoom(bill: Bill, notes: seq<Note>, asks: seq<Ask>, i: nat)
    requires i < |bill.lines| && Fits(Remaining(bill.lines, Counted(bill.lines, Live(notes))), asks)
    requires StoredAsked(asks, i) != 0.0
    ensures Legacy(Live(notes), LineSig(bill.lines[i])) <= Given(bill.lines, Live(notes), LineSig(bill.lines[i]), i + 1)
  {
    var remaining := Remaining(bill.lines, Counted(bill.lines, Live(notes)));
    if Asked(asks, i) <= EPS { CrumbsAreNotStored(asks, i); }
    AskedFits(remaining, asks, i);
    assert remaining[i] == bill.lines[i].quantity - Returned(bill.lines, Live(notes), i) > 0.0;
  }

  lemma {:induction false} GivenGrows(lines: seq<SoldLine>, notes: seq<Note>, s: Signature, j: nat, k: nat)
    requires j <= k <= |lines|
    ensures Given(lines, notes, s, j) <= Given(lines, notes, s, k)
  {
    if j < k { GivenGrows(lines, notes, s, j, k - 1); }
  }

  lemma LineBound(bill: Bill, notes: seq<Note>, asks: seq<Ask>, i: nat, most: nat)
    requires i < |bill.lines| && Within(bill, notes, most) && AtMost(asks, most)
    requires Fits(Remaining(bill.lines, Counted(bill.lines, Live(notes))), asks)
    ensures Attributed(bill.lines, Live(notes), i) + Linked(Live(notes), i) + StoredAsked(asks, i)
            <= bill.lines[i].quantity + Slack(most)
  {
    var remaining := Remaining(bill.lines, Counted(bill.lines, Live(notes)));
    assert remaining[i] == bill.lines[i].quantity - Returned(bill.lines, Live(notes), i);
    AskedFits(remaining, asks, i);
    StoredIsNearAsked(asks, i);
    assert Times(asks, i) <= most;
    assert Linked(Live(notes), i) <= bill.lines[i].quantity + Slack(most);
  }

  lemma {:induction false} LinesBound(bill: Bill, notes: seq<Note>, asks: seq<Ask>, s: Signature, k: nat, most: nat)
    requires k <= |bill.lines| && Within(bill, notes, most) && AtMost(asks, most)
    requires Fits(Remaining(bill.lines, Counted(bill.lines, Live(notes))), asks)
    ensures Given(bill.lines, Live(notes), s, k) + LinkedFor(bill.lines, Live(notes), s, k)
            + StoredFor(bill.lines, asks, s, k) <= Sold(bill.lines, s, k) + SlackFor(bill.lines, s, k, most)
  {
    if k > 0 {
      LinesBound(bill, notes, asks, s, k - 1, most);
      LineBound(bill, notes, asks, k - 1, most);
    }
  }

  /** Either nothing is stored for the goods, or all their unlinked returns have found a line. */
  lemma {:induction false} StoredOrGiven(bill: Bill, notes: seq<Note>, asks: seq<Ask>, s: Signature, k: nat)
    requires k <= |bill.lines| && Fits(Remaining(bill.lines, Counted(bill.lines, Live(notes))), asks)
    ensures StoredFor(bill.lines, asks, s, k) == 0.0
            || Legacy(Live(notes), s) <= Given(bill.lines, Live(notes), s, |bill.lines|)
  {
    if k > 0 {
      StoredOrGiven(bill, notes, asks, s, k - 1);
      if LineSig(bill.lines[k - 1]) == s && StoredAsked(asks, k - 1) != 0.0 {
        StoredMeansRoom(bill, notes, asks, k - 1);
        GivenGrows(bill.lines, Live(notes), s, k, |bill.lines|);
      }
    }
  }

  lemma ReturnKeepsBound(bill: Bill, notes: seq<Note>, asks: seq<Ask>, s: Signature, most: nat)
    requires Within(bill, notes, most) && AtMost(asks, most) && GoodsBounded(bill, notes, s, most)
    requires Fits(Remaining(bill.lines, Counted(bill.lines, Live(notes))), asks)
    ensures GoodsBounded(bill, notes + [Note(false, BacksOf(bill.lines, asks))], s, most)
  {
    var n := |bill.lines|;
    LinkedForAdds(bill.lines, notes, asks, s, n);
    UnlinkedStay(bill, notes, asks, s);
    StoredOrGiven(bill, notes, asks, s, n);
    LinesBound(bill, notes, asks, s, n, most);
  }

  lemma UnlinkedStay(bill: Bill, notes: seq<Note>, asks: seq<Ask>, s: Signature)
    ensures Legacy(Live(notes + [Note(false, BacksOf(bill.lines, asks))]), s) == Legacy(Live(notes), s)
  {
    var n := Note(false, BacksOf(bill.lines, asks));
    ByNote(notes, 0, s);
    ByNote(notes + [n], 0, s);
    SumAppend(notes, n, NoteLegacy(s));
    BacksAreLinked(bill.lines, asks, s);
  }

  // ----- Deleting and restoring a credit note -----

  lemma RemovalKeepsBound(bill: Bill, notes: seq<Note>, k: nat, s: Signature, most: nat)
    requires GoodsBounded(bill, notes, s, most) && k < |notes| && !notes[k].deleted && NotNegative(notes[k])
    ensures GoodsBounded(bill, notes[k := notes[k].(deleted := true)], s, most)
  {
    LinkedForShrinks(bill.lines, notes, k, s, |bill.lines|);
    NoteLinkedNotNegative(bill.lines, notes[k], s, |bill.lines|);
    NoteRemoved(notes, k, 0, s);
    PartsNotNegative(notes[k], 0, s);
  }

  /** What the note returned of each kind of goods leaves it within its bound. */
  ghost predicate RestoreBounded(bill: Bill, notes: seq<Note>, k: nat, most: nat) {
    k < |notes| ==> forall s :: RestoreBoundedFor(bill, notes, k, s, most)
  }

  predicate RestoreBoundedFor(bill: Bill, notes: seq<Note>, k: nat, s: Signature, most: nat)
    requires k < |notes|
  {
    Sum(notes[k].lines, LegacyPart(s)) + NoteLinkedFor(bill.lines, notes[k], s, |bill.lines|)
    <= Sold(bill.lines, s, |bill.lines|) + SlackFor(bill.lines, s, |bill.lines|, most) - AllReturned(bill, notes, s)
  }

  lemma RestoringKeepsBoundExactlyWhen(bill: Bill, notes: seq<Note>, k: nat, s: Signature, most: nat)
    requires k < |notes| && notes[k].deleted
    ensures GoodsBounded(bill, notes[k := notes[k].(deleted := false)], s, most)
            <==> RestoreBoundedFor(bill, notes, k, s, most)
  {
    LinkedForGrows(bill.lines, notes, k, s, |bill.lines|);
    NoteRestored(notes, k, 0, s);
  }

  // ----- Whole runs -----

  ghost predicate Measured(bill: Bill, before: seq<Note>, e: Event, most: nat) {
    Moderate(bill, before, e, most) && (e.Restoring? ==> RestoreBounded(bill, before, e.k, most))
  }

  lemma StepKeepsBound(bill: Bill, before: seq<Note>, e: Event, after: seq<Note>, most: nat)
    requires most >= 1 && Within(bill, before, most) && GoodsWithin(bill, before, most)
    requires Follows(bill, before, e, after) && Measured(bill, before, e, most)
    ensures GoodsWithin(bill, after, most)
  {
    hide GoodsBounded, RestoreBoundedFor, AtMost;
    forall s ensures GoodsBounded(bill, after, s, most) {
      assert GoodsBounded(bill, before, s, most);
      match e
      case Refunding(body, outcome) =>
        RequestAsksAtMost(bill, before, body, most);
        if outcome.Credited? { ReturnKeepsBound(bill, before, Requested(bill.lines, before, body), s, most); }
      case Removing(k) => RemovalKeepsBound(bill, before, k, s, most);
      case Restoring(k) =>
        RestoringKeepsBoundExactlyWhen(bill, before, k, s, most);
        assert RestoreBoundedFor(bill, before, k, s, most);
    }
  }

  /**
    Over every sequence of returns, deletions of credit notes and restorings that fit, whatever the
    requests, linked and unlinked returns of a kind of goods exceed what was sold of it by at most one
    slack for each of its lines.
  */
  lemma {:induction false} GoodsNeverOverReturned(bill: Bill, states: seq<seq<Note>>, events: seq<Event>, n: nat,
                                                  most: nat)
    requires IsRun(bill, states, events) && most >= 1 && n < |states|
    requires Within(bill, states[0], most) && GoodsWithin(bill, states[0], most)
    requires forall k :: 0 <= k < |events| ==> Measured(bill, states[k], events[k], most)
    ensures GoodsWithin(bill, states[n], most)
  {
    hide Within, GoodsWithin, Follows, Moderate, RestoreBounded;
    if n > 0 {
      GoodsNeverOverReturned(bill, states, events, n - 1, most);
      NeverOverReturned(bill, states, events, n - 1, most);
      StepKeepsBound(bill, states[n - 1], events[n - 1], states[n], most);
    }
  }
}
