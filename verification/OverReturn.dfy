/** How much of an invoice line can come back over any sequence of returns. */
module OverReturn {
  import opened Sums
  import opened Refunds
  import opened Returns

  // ----- Totals per credit note -----

  function NoteLinked(i: nat): Note -> real { (n: Note) => if n.deleted then 0.0 else Sum(n.lines, LinkedPart(i)) }

  function NoteLegacy(s: Signature): Note -> real {
    (n: Note) => if n.deleted then 0.0 else Sum(n.lines, LegacyPart(s))
  }

  lemma {:induction false} FlatAppend(notes: seq<Note>, n: Note)
    ensures Flat(notes + [n]) == Flat(notes) + n.lines
  {
    assert (notes + [n])[..|notes|] == notes;
  }

  lemma {:induction false} ByNote(notes: seq<Note>, i: nat, s: Signature)
    ensures Linked(Live(notes), i) == Sum(notes, NoteLinked(i))
    ensures Legacy(Live(notes), s) == Sum(notes, NoteLegacy(s))
  {
    if |notes| > 0 {
      var n := |notes| - 1;
      ByNote(notes[..n], i, s);
      if !notes[n].deleted {
        FlatAppend(Live(notes[..n]), notes[n]);
        SumConcat(Flat(Live(notes[..n])), notes[n].lines, LinkedPart(i));
        SumConcat(Flat(Live(notes[..n])), notes[n].lines, LegacyPart(s));
      }
    }
  }

  /** What a request adds to a line's links: each asked quantity as it is stored. */
  function StoredPart(i: nat): Ask -> real {
    (a: Ask) => if a.line == i && a.quantity > 0.0 then ToThousandths(a.quantity) else 0.0
  }

  function StoredAsked(asks: seq<Ask>, i: nat): real { Sum(asks, StoredPart(i)) }

  lemma {:induction false} BacksAreAsked(lines: seq<SoldLine>, asks: seq<Ask>, i: nat)
    requires i < |lines|
    ensures Sum(BacksOf(lines, asks), LinkedPart(i)) == StoredAsked(asks, i)
  {
    if |asks| > 0 {
      var n := |asks| - 1;
      var init := BacksOf(lines, asks[..n]);
      BacksAreAsked(lines, asks[..n], i);
      if asks[n].quantity > 0.0 && asks[n].line < |lines| {
        SumAppend(init, BackOf(lines, asks[n]), LinkedPart(i));
      } else {
        assert init + [] == init;
      }
    }
  }

  lemma {:induction false} BacksAreLinked(lines: seq<SoldLine>, asks: seq<Ask>, s: Signature)
    ensures Sum(BacksOf(lines, asks), LegacyPart(s)) == 0.0
  {
    if |asks| > 0 {
      var n := |asks| - 1;
      var init := BacksOf(lines, asks[..n]);
      BacksAreLinked(lines, asks[..n], s);
      if asks[n].quantity > 0.0 && asks[n].line < |lines| {
        SumAppend(init, BackOf(lines, asks[n]), LegacyPart(s));
      } else {
        assert init + [] == init;
      }
    }
  }

  /** A new credit note adds what was asked for, as stored, to the links and nothing to the unlinked. */
  lemma NoteAdds(lines: seq<SoldLine>, notes: seq<Note>, asks: seq<Ask>, i: nat, s: Signature)
    requires i < |lines|
    ensures var after := notes + [Note(false, BacksOf(lines, asks))];
            && Linked(Live(after), i) == Linked(Live(notes), i) + StoredAsked(asks, i)
            && Legacy(Live(after), s) == Legacy(Live(notes), s)
  {
    var n := Note(false, BacksOf(lines, asks));
    ByNote(notes, i, s);
    ByNote(notes + [n], i, s);
    SumAppend(notes, n, NoteLinked(i));
    SumAppend(notes, n, NoteLegacy(s));
    BacksAreAsked(lines, asks, i);
    BacksAreLinked(lines, asks, s);
  }

  lemma NoteRemoved(notes: seq<Note>, k: nat, i: nat, s: Signature)
    requires k < |notes| && !notes[k].deleted
    ensures var after := notes[k := notes[k].(deleted := true)];
            && Linked(Live(after), i) == Linked(Live(notes), i) - Sum(notes[k].lines, LinkedPart(i))
            && Legacy(Live(after), s) == Legacy(Live(notes), s) - Sum(notes[k].lines, LegacyPart(s))
  {
    var gone := notes[k].(deleted := true);
    ByNote(notes, i, s);
    ByNote(notes[k := gone], i, s);
    SumUpdate(notes, k, gone, NoteLinked(i));
    SumUpdate(notes, k, gone, NoteLegacy(s));
  }

  lemma NoteRestored(notes: seq<Note>, k: nat, i: nat, s: Signature)
    requires k < |notes| && notes[k].deleted
    ensures var after := notes[k := notes[k].(deleted := false)];
            && Linked(Live(after), i) == Linked(Live(notes), i) + Sum(notes[k].lines, LinkedPart(i))
            && Legacy(Live(after), s) == Legacy(Live(notes), s) + Sum(notes[k].lines, LegacyPart(s))
  {
    var back := notes[k].(deleted := false);
    ByNote(notes, i, s);
    ByNote(notes[k := back], i, s);
    SumUpdate(notes, k, back, NoteLinked(i));
    SumUpdate(notes, k, back, NoteLegacy(s));
  }

  // ----- Runs of returns, deletions and restorings of credit notes -----

  datatype Event = Refunding(body: Body, outcome: Outcome) | Removing(k: nat) | Restoring(k: nat)

  ghost predicate Follows(bill: Bill, before: seq<Note>, e: Event, after: seq<Note>) {
    match e
    case Refunding(body, outcome) => RefundSpec(bill, before, body, outcome, after)
    case Removing(k) => k < |before| && !before[k].deleted && after == before[k := before[k].(deleted := true)]
    case Restoring(k) => k < |before| && before[k].deleted && after == before[k := before[k].(deleted := false)]
  }

  ghost predicate IsRun(bill: Bill, states: seq<seq<Note>>, events: seq<Event>) {
    |states| == |events| + 1 && forall n :: 0 <= n < |events| ==> Follows(bill, states[n], events[n], states[n + 1])
  }

  predicate NotNegative(n: Note) { forall j :: 0 <= j < |n.lines| ==> n.lines[j].quantity >= 0.0 }

  /** A return can overshoot by the tolerance and by half a thousandth for each time it asks for the line. */
  function Slack(most: nat): real { EPS + 0.0005 * most as real }

  ghost predicate Within(bill: Bill, notes: seq<Note>, most: nat) {
    && (forall k :: 0 <= k < |notes| ==> NotNegative(notes[k]))
    && (forall i: nat :: i < |bill.lines| ==> Linked(Live(notes), i) <= bill.lines[i].quantity + Slack(most))
  }

  lemma StoringRounds(x: real)
    ensures x - 0.0005 <= ToThousandths(x) <= x + 0.0005
    ensures x >= 0.0 ==> ToThousandths(x) >= 0.0
  {
    var n := (x * 1000.0 + 0.5).Floor;
    assert n as real <= x * 1000.0 + 0.5 < n as real + 1.0;
  }

  lemma {:induction false} BacksNotNegative(lines: seq<SoldLine>, asks: seq<Ask>)
    ensures forall j :: 0 <= j < |BacksOf(lines, asks)| ==> BacksOf(lines, asks)[j].quantity >= 0.0
  {
    if |asks| > 0 {
      BacksNotNegative(lines, asks[..|asks| - 1]);
      StoringRounds(asks[|asks| - 1].quantity);
    }
  }

  /** How often something of line i is asked for. */
  function Times(asks: seq<Ask>, i: nat): nat {
    if |asks| == 0 then 0
    else Times(asks[..|asks| - 1], i) + (if asks[|asks| - 1].line == i && asks[|asks| - 1].quantity > 0.0 then 1 else 0)
  }

  lemma {:induction false} StoredIsNearAsked(asks: seq<Ask>, i: nat)
    ensures StoredAsked(asks, i) <= Asked(asks, i) + 0.0005 * Times(asks, i) as real
    ensures Asked(asks, i) >= 0.0
    ensures Times(asks, i) == 0 ==> StoredAsked(asks, i) == Asked(asks, i) == 0.0
    ensures Times(asks, i) > 0 ==> Asked(asks, i) > 0.0
  {
    if |asks| > 0 {
      StoredIsNearAsked(asks[..|asks| - 1], i);
      StoringRounds(asks[|asks| - 1].quantity);
    }
  }

  lemma {:induction false} AskedWhere(asks: seq<Ask>, i: nat) returns (k: nat)
    ensures Asked(asks, i) >= 0.0
    ensures Asked(asks, i) > 0.0 ==> k < |asks| && asks[k].line == i && asks[k].quantity > 0.0
  {
    k := 0;
    if |asks| > 0 {
      var n := |asks| - 1;
      k := AskedWhere(asks[..n], i);
      if asks[n].line == i && asks[n].quantity > 0.0 { k := n; }
    }
  }

  /** Whatever is asked of a line fits into what remains of it. */
  lemma AskedFits(remaining: seq<real>, asks: seq<Ask>, i: nat)
    requires Fits(remaining, asks) && i < |remaining|
    ensures Asked(asks, i) >= 0.0
    ensures Asked(asks, i) > 0.0 ==> Asked(asks, i) <= remaining[i] + EPS
  {
    var k := AskedWhere(asks, i);
    if Asked(asks, i) > 0.0 { assert AskFits(remaining, asks, asks[k].line); }
  }

  lemma {:induction false} PartsNotNegative(n: Note, i: nat, s: Signature)
    requires NotNegative(n)
    ensures Sum(n.lines, LinkedPart(i)) >= 0.0 && Sum(n.lines, LegacyPart(s)) >= 0.0
  {
    SumPrefix(n.lines, |n.lines|, LinkedPart(i));
    SumPrefix(n.lines, |n.lines|, LegacyPart(s));
  }

  ghost predicate AtMost(asks: seq<Ask>, most: nat) { forall i: nat :: Times(asks, i) <= most }

  lemma RefundStaysWithin(bill: Bill, notes: seq<Note>, asks: seq<Ask>, most: nat)
    requires Within(bill, notes, most) && AtMost(asks, most)
    requires Fits(Remaining(bill.lines, Counted(bill.lines, Live(notes))), asks)
    ensures Within(bill, notes + [Note(false, BacksOf(bill.lines, asks))], most)
  {
    var remaining := Remaining(bill.lines, Counted(bill.lines, Live(notes)));
    var after := notes + [Note(false, BacksOf(bill.lines, asks))];
    BacksNotNegative(bill.lines, asks);
    forall i: nat | i < |bill.lines| ensures Linked(Live(after), i) <= bill.lines[i].quantity + Slack(most) {
      NoteAdds(bill.lines, notes, asks, i, ByName("", 0.0));
      AskedFits(remaining, asks, i);
      StoredIsNearAsked(asks, i);
      assert Times(asks, i) <= most;
      assert remaining[i] == bill.lines[i].quantity - Returned(bill.lines, Live(notes), i);
    }
  }

  lemma RemovalStaysWithin(bill: Bill, notes: seq<Note>, k: nat, most: nat)
    requires Within(bill, notes, most) && k < |notes| && !notes[k].deleted
    ensures Within(bill, notes[k := notes[k].(deleted := true)], most)
  {
    var s, after := ByName("", 0.0), notes[k := notes[k].(deleted := true)];
    forall j | 0 <= j < |after| ensures NotNegative(after[j]) { assert NotNegative(notes[j]); }
    forall i: nat | i < |bill.lines| ensures Linked(Live(after), i) <= bill.lines[i].quantity + Slack(most) {
      NoteRemoved(notes, k, i, s);
      PartsNotNegative(notes[k], i, s);
    }
  }

  /** Asking for what remains asks for each line once. */
  lemma {:induction false} RestAsksOnce(remaining: seq<real>, wanted: nat -> bool, k: nat, i: nat)
    requires k <= |remaining|
    ensures Times(Rest(remaining, wanted, k), i) <= if i < k then 1 else 0
  {
    if k > 0 {
      RestAsksOnce(remaining, wanted, k - 1, i);
      var init := Rest(remaining, wanted, k - 1);
      if wanted(k - 1) {
        assert (init + [Ask(k - 1, remaining[k - 1])])[..|init|] == init;
      } else {
        assert init + [] == init;
      }
    }
  }

  lemma RequestAsksAtMost(bill: Bill, notes: seq<Note>, body: Body, most: nat)
    requires most >= 1 && AtMost(body.parts, most)
    ensures AtMost(Requested(bill.lines, notes, body), most)
  {
    var remaining := Remaining(bill.lines, Counted(bill.lines, Live(notes)));
    forall i: nat ensures Times(Requested(bill.lines, notes, body), i) <= most {
      RestAsksOnce(remaining, (j: nat) => |body.lineIds| == 0 || j in body.lineIds, |remaining|, i);
    }
  }

  /** Restoring the note leaves every line's links within the slack. */
  ghost predicate RestoreWithin(bill: Bill, notes: seq<Note>, k: nat, most: nat) {
    k < |notes| ==>
      forall i: nat :: i < |bill.lines| ==>
        Sum(notes[k].lines, LinkedPart(i)) <= bill.lines[i].quantity + Slack(most) - Linked(Live(notes), i)
  }

  lemma RestoringStaysWithinExactlyWhen(bill: Bill, notes: seq<Note>, k: nat, most: nat)
    requires Within(bill, notes, most) && k < |notes| && notes[k].deleted
    ensures Within(bill, notes[k := notes[k].(deleted := false)], most) <==> RestoreWithin(bill, notes, k, most)
  {
    var s, after := ByName("", 0.0), notes[k := notes[k].(deleted := false)];
    forall j | 0 <= j < |after| ensures NotNegative(after[j]) { assert NotNegative(notes[j]); }
    forall i: nat | i < |bill.lines|
      ensures Linked(Live(after), i) == Linked(Live(notes), i) + Sum(notes[k].lines, LinkedPart(i))
    {
      NoteRestored(notes, k, i, s);
    }
  }

  /** What is asked of the events of a run: no line too often in a request, no note restored that does not fit. */
  ghost predicate Moderate(bill: Bill, before: seq<Note>, e: Event, most: nat) {
    && (e.Refunding? ==> AtMost(e.body.parts, most))
    && (e.Restoring? ==> RestoreWithin(bill, before, e.k, most))
  }

  lemma StepStaysWithin(bill: Bill, before: seq<Note>, e: Event, after: seq<Note>, most: nat)
    requires most >= 1 && Within(bill, before, most) && Follows(bill, before, e, after)
             && Moderate(bill, before, e, most)
    ensures Within(bill, after, most)
  {
    match e
    case Refunding(body, outcome) =>
      RequestAsksAtMost(bill, before, body, most);
      if outcome.Credited? { RefundStaysWithin(bill, before, Requested(bill.lines, before, body), most); }
    case Removing(k) => RemovalStaysWithin(bill, before, k, most);
    case Restoring(k) => RestoringStaysWithinExactlyWhen(bill, before, k, most);
  }

  /**
    Over every sequence of returns, deletions of credit notes and restorings that fit, a line's links
    exceed what was sold by at most one tolerance and half a thousandth for each time one request asks
    for it: the slack is granted once, not once per return.
  */
  lemma {:induction false} NeverOverReturned(bill: Bill, states: seq<seq<Note>>, events: seq<Event>, n: nat, most: nat)
    requires IsRun(bill, states, events) && most >= 1 && Within(bill, states[0], most) && n < |states|
    requires forall k :: 0 <= k < |events| ==> Moderate(bill, states[k], events[k], most)
    ensures Within(bill, states[n], most)
  {
    if n > 0 {
      NeverOverReturned(bill, states, events, n - 1, most);
      assert Follows(bill, states[n - 1], events[n - 1], states[n]);
      StepStaysWithin(bill, states[n - 1], events[n - 1], states[n], most);
    }
  }

  // ----- Linked and unlinked returns together -----

  /** Over the first k lines with this signature: sold, returned through links, and stored for a request. */
  function Sold(lines: seq<SoldLine>, s: Signature, k: nat): real
    requires k <= |lines|
  {
    if k == 0 then 0.0 else Sold(lines, s, k - 1) + (if LineSig(lines[k - 1]) == s then lines[k - 1].quantity else 0.0)
  }

  function LinkedFor(lines: seq<SoldLine>, notes: seq<Note>, s: Signature, k: nat): real
    requires k <= |lines|
  {
    if k == 0 then 0.0 else LinkedFor(lines, notes, s, k - 1)
                            + (if LineSig(lines[k - 1]) == s then Linked(notes, k - 1) else 0.0)
  }

  function StoredFor(lines: seq<SoldLine>, asks: seq<Ask>, s: Signature, k: nat): real
    requires k <= |lines|
  {
    if k == 0 then 0.0
    else StoredFor(lines, asks, s, k - 1) + (if LineSig(lines[k - 1]) == s then StoredAsked(asks, k - 1) else 0.0)
  }

  function RemainingFor(lines: seq<SoldLine>, notes: seq<Note>, s: Signature, k: nat): real
    requires k <= |lines|
  {
    if k == 0 then 0.0
    else RemainingFor(lines, notes, s, k - 1)
         + (if LineSig(lines[k - 1]) == s then lines[k - 1].quantity - Returned(lines, notes, k - 1) else 0.0)
  }

  function AllReturned(bill: Bill, notes: seq<Note>, s: Signature): real {
    Legacy(Live(notes), s) + LinkedFor(bill.lines, Live(notes), s, |bill.lines|)
  }

  /** Nothing is over-returned, line by line and goods by goods. */
  ghost predicate Settled(bill: Bill, notes: seq<Note>) {
    && (forall k :: 0 <= k < |notes| ==> NotNegative(notes[k]))
    && (forall i: nat :: i < |bill.lines| ==> Linked(Live(notes), i) <= bill.lines[i].quantity)
    && (forall s :: AllReturned(bill, notes, s) <= Sold(bill.lines, s, |bill.lines|))
  }

  lemma {:induction false} RoomIsSoldLessLinked(lines: seq<SoldLine>, notes: seq<Note>, s: Signature, k: nat)
    requires k <= |lines| && forall i: nat :: i < |lines| && LineSig(lines[i]) == s
                               ==> Linked(notes, i) <= lines[i].quantity
    ensures RoomFor(lines, notes, s, k) == Sold(lines, s, k) - LinkedFor(lines, notes, s, k)
    ensures RemainingFor(lines, notes, s, k)
            == Sold(lines, s, k) - LinkedFor(lines, notes, s, k) - Given(lines, notes, s, k)
  {
    if k > 0 { RoomIsSoldLessLinked(lines, notes, s, k - 1); }
  }

  lemma {:induction false} LegacyNotNegative(notes: seq<Note>, s: Signature)
    requires forall k :: 0 <= k < |notes| ==> NotNegative(notes[k])
    ensures Sum(notes, NoteLegacy(s)) >= 0.0
  {
    if |notes| > 0 {
      LegacyNotNegative(notes[..|notes| - 1], s);
      assert NotNegative(notes[|notes| - 1]);
      PartsNotNegative(notes[|notes| - 1], 0, s);
    }
  }

  /** All unlinked returns find a line, so what remains is what was sold less all that came back. */
  lemma RemainingIsExact(bill: Bill, notes: seq<Note>, s: Signature)
    requires Settled(bill, notes)
    ensures RemainingFor(bill.lines, Live(notes), s, |bill.lines|)
            == Sold(bill.lines, s, |bill.lines|) - AllReturned(bill, notes, s)
  {
    var n := |bill.lines|;
    RoomIsSoldLessLinked(bill.lines, Live(notes), s, n);
    GreedyHandsOut(bill.lines, Live(notes), s, n);
    ByNote(notes, 0, s);
    LegacyNotNegative(notes, s);
    assert AllReturned(bill, notes, s) <= Sold(bill.lines, s, n);
  }

  lemma {:induction false} LinkedForAdds(lines: seq<SoldLine>, notes: seq<Note>, asks: seq<Ask>, s: Signature, k: nat)
    requires k <= |lines|
    ensures LinkedFor(lines, Live(notes + [Note(false, BacksOf(lines, asks))]), s, k)
            == LinkedFor(lines, Live(notes), s, k) + StoredFor(lines, asks, s, k)
  {
    if k > 0 {
      LinkedForAdds(lines, notes, asks, s, k - 1);
      NoteAdds(lines, notes, asks, k - 1, s);
    }
  }

  /** A return keeps a kind of goods within what was sold exactly when what it stores for them, over all
      their lines together, is no more than remains: a caller can check that before the call. */
  lemma OverReturnedExactlyWhen(bill: Bill, notes: seq<Note>, asks: seq<Ask>, s: Signature)
    requires Settled(bill, notes)
    ensures AllReturned(bill, notes + [Note(false, BacksOf(bill.lines, asks))], s) <= Sold(bill.lines, s, |bill.lines|)
            <==> StoredFor(bill.lines, asks, s, |bill.lines|) <= RemainingFor(bill.lines, Live(notes), s, |bill.lines|)
  {
    var n := |bill.lines|;
    RemainingIsExact(bill, notes, s);
    LinkedForAdds(bill.lines, notes, asks, s, n);
    ByNote(notes, 0, s);
    ByNote(notes + [Note(false, BacksOf(bill.lines, asks))], 0, s);
    SumAppend(notes, Note(false, BacksOf(bill.lines, asks)), NoteLegacy(s));
    BacksAreLinked(bill.lines, asks, s);
  }

  /** What a request stores leaves no line and no kind of goods over-returned. */
  ghost predicate StoredFits(bill: Bill, notes: seq<Note>, asks: seq<Ask>) {
    && (forall i: nat :: i < |bill.lines| ==> StoredAsked(asks, i) <= bill.lines[i].quantity - Linked(Live(notes), i))
    && (forall s :: StoredFor(bill.lines, asks, s, |bill.lines|)
          <= RemainingFor(bill.lines, Live(notes), s, |bill.lines|))
  }

  lemma LinesStaySettledExactlyWhen(bill: Bill, notes: seq<Note>, asks: seq<Ask>, i: nat)
    requires i < |bill.lines|
    ensures Linked(Live(notes + [Note(false, BacksOf(bill.lines, asks))]), i) <= bill.lines[i].quantity
            <==> StoredAsked(asks, i) <= bill.lines[i].quantity - Linked(Live(notes), i)
  {
    NoteAdds(bill.lines, notes, asks, i, ByName("", 0.0));
  }

  /** For any request at all: nothing is over-returned afterwards exactly when what it stores fits. */
  lemma StaysSettledExactlyWhen(bill: Bill, notes: seq<Note>, asks: seq<Ask>)
    requires Settled(bill, notes)
    ensures Settled(bill, notes + [Note(false, BacksOf(bill.lines, asks))]) <==> StoredFits(bill, notes, asks)
  {
    var n := Note(false, BacksOf(bill.lines, asks));
    var after := notes + [n];
    BacksNotNegative(bill.lines, asks);
    assert NotNegative(n);
    assert forall k :: 0 <= k < |after| ==> NotNegative(after[k]);
    forall i: nat | i < |bill.lines|
      ensures Linked(Live(after), i) <= bill.lines[i].quantity
              <==> StoredAsked(asks, i) <= bill.lines[i].quantity - Linked(Live(notes), i)
    {
      LinesStaySettledExactlyWhen(bill, notes, asks, i);
    }
    forall s
      ensures AllReturned(bill, after, s) <= Sold(bill.lines, s, |bill.lines|)
              <==> StoredFor(bill.lines, asks, s, |bill.lines|)
                   <= RemainingFor(bill.lines, Live(notes), s, |bill.lines|)
    {
      OverReturnedExactlyWhen(bill, notes, asks, s);
    }
  }

  // ----- Deleting and restoring a credit note -----

  /** What one note returned through links to the first k lines with this signature. */
  function NoteLinkedFor(lines: seq<SoldLine>, n: Note, s: Signature, k: nat): real
    requires k <= |lines|
  {
    if k == 0 then 0.0
    else NoteLinkedFor(lines, n, s, k - 1)
         + (if LineSig(lines[k - 1]) == s then Sum(n.lines, LinkedPart(k - 1)) else 0.0)
  }

  lemma {:induction false} LinkedForShrinks(lines: seq<SoldLine>, notes: seq<Note>, k: nat, s: Signature, n: nat)
    requires n <= |lines| && k < |notes| && !notes[k].deleted
    ensures LinkedFor(lines, Live(notes[k := notes[k].(deleted := true)]), s, n)
            == LinkedFor(lines, Live(notes), s, n) - NoteLinkedFor(lines, notes[k], s, n)
  {
    hide Live, Linked;
    if n > 0 {
      LinkedForShrinks(lines, notes, k, s, n - 1);
      NoteRemoved(notes, k, n - 1, s);
    }
  }

  lemma {:induction false} LinkedForGrows(lines: seq<SoldLine>, notes: seq<Note>, k: nat, s: Signature, n: nat)
    requires n <= |lines| && k < |notes| && notes[k].deleted
    ensures LinkedFor(lines, Live(notes[k := notes[k].(deleted := false)]), s, n)
            == LinkedFor(lines, Live(notes), s, n) + NoteLinkedFor(lines, notes[k], s, n)
  {
    hide Live, Linked;
    if n > 0 {
      LinkedForGrows(lines, notes, k, s, n - 1);
      NoteRestored(notes, k, n - 1, s);
    }
  }

  lemma {:induction false} NoteLinkedNotNegative(lines: seq<SoldLine>, n: Note, s: Signature, k: nat)
    requires k <= |lines| && NotNegative(n)
    ensures NoteLinkedFor(lines, n, s, k) >= 0.0
  {
    if k > 0 {
      NoteLinkedNotNegative(lines, n, s, k - 1);
      PartsNotNegative(n, k - 1, s);
    }
  }

  lemma RemovalStaysSettled(bill: Bill, notes: seq<Note>, k: nat)
    requires Settled(bill, notes) && k < |notes| && !notes[k].deleted
    ensures Settled(bill, notes[k := notes[k].(deleted := true)])
  {
    var after := notes[k := notes[k].(deleted := true)];
    forall j | 0 <= j < |after| ensures NotNegative(after[j]) { assert NotNegative(notes[j]); }
    forall i: nat | i < |bill.lines| ensures Linked(Live(after), i) <= bill.lines[i].quantity {
      NoteRemoved(notes, k, i, ByName("", 0.0));
      PartsNotNegative(notes[k], i, ByName("", 0.0));
    }
    forall s ensures AllReturned(bill, after, s) <= Sold(bill.lines, s, |bill.lines|) {
      LinkedForShrinks(bill.lines, notes, k, s, |bill.lines|);
      NoteLinkedNotNegative(bill.lines, notes[k], s, |bill.lines|);
      NoteRemoved(notes, k, 0, s);
      PartsNotNegative(notes[k], 0, s);
      assert AllReturned(bill, notes, s) <= Sold(bill.lines, s, |bill.lines|);
    }
  }

  /** All that the note returned, line by line and goods by goods, is still to be returned. */
  ghost predicate RestoreFits(bill: Bill, notes: seq<Note>, k: nat)
    requires k < |notes|
  {
    && (forall i: nat :: i < |bill.lines| ==>
          Sum(notes[k].lines, LinkedPart(i)) <= bill.lines[i].quantity - Linked(Live(notes), i))
    && (forall s :: Sum(notes[k].lines, LegacyPart(s)) + NoteLinkedFor(bill.lines, notes[k], s, |bill.lines|)
                    <= RemainingFor(bill.lines, Live(notes), s, |bill.lines|))
  }

  lemma GoodsRestoredExactlyWhen(bill: Bill, notes: seq<Note>, k: nat, s: Signature)
    requires Settled(bill, notes) && k < |notes| && notes[k].deleted
    ensures AllReturned(bill, notes[k := notes[k].(deleted := false)], s) <= Sold(bill.lines, s, |bill.lines|)
            <==> Sum(notes[k].lines, LegacyPart(s)) + NoteLinkedFor(bill.lines, notes[k], s, |bill.lines|)
                 <= RemainingFor(bill.lines, Live(notes), s, |bill.lines|)
  {
    RemainingIsExact(bill, notes, s);
    LinkedForGrows(bill.lines, notes, k, s, |bill.lines|);
    NoteRestored(notes, k, 0, s);
  }

  /** Restoring is not checked by the server.  It over-returns nothing exactly when what the note returned
      is still to be returned, which can be looked up before. */
  lemma RestoringStaysSettledExactlyWhen(bill: Bill, notes: seq<Note>, k: nat)
    requires Settled(bill, notes) && k < |notes| && notes[k].deleted
    ensures Settled(bill, notes[k := notes[k].(deleted := false)]) <==> RestoreFits(bill, notes, k)
  {
    var after := notes[k := notes[k].(deleted := false)];
    assert forall j :: 0 <= j < |after| ==> NotNegative(notes[j]) && NotNegative(after[j]);
    forall i: nat | i < |bill.lines|
      ensures Linked(Live(after), i) == Linked(Live(notes), i) + Sum(notes[k].lines, LinkedPart(i))
    {
      NoteRestored(notes, k, i, ByName("", 0.0));
    }
    forall s
      ensures AllReturned(bill, after, s) <= Sold(bill.lines, s, |bill.lines|)
              <==> Sum(notes[k].lines, LegacyPart(s)) + NoteLinkedFor(bill.lines, notes[k], s, |bill.lines|)
                   <= RemainingFor(bill.lines, Live(notes), s, |bill.lines|)
    {
      GoodsRestoredExactlyWhen(bill, notes, k, s);
    }
  }

  // ----- Whole runs -----

  /** What is stored or restored fits what remains. */
  ghost predicate EventFits(bill: Bill, before: seq<Note>, e: Event) {
    match e
    case Refunding(body, outcome) =>
      outcome.Credited? ==> StoredFits(bill, before, Requested(bill.lines, before, body))
    case Removing(k) => true
    case Restoring(k) => k < |before| ==> RestoreFits(bill, before, k)
  }

  lemma StepSettledExactlyWhen(bill: Bill, before: seq<Note>, e: Event, after: seq<Note>)
    requires Settled(bill, before) && Follows(bill, before, e, after)
    ensures Settled(bill, after) <==> EventFits(bill, before, e)
  {
    hide Settled, StoredFits, RestoreFits;
    match e
    case Refunding(body, outcome) =>
      if outcome.Credited? { StaysSettledExactlyWhen(bill, before, Requested(bill.lines, before, body)); }
    case Removing(k) => RemovalStaysSettled(bill, before, k);
    case Restoring(k) => RestoringStaysSettledExactlyWhen(bill, before, k);
  }

  lemma {:induction false} SettledSoFar(bill: Bill, states: seq<seq<Note>>, events: seq<Event>, n: nat)
    requires IsRun(bill, states, events) && Settled(bill, states[0]) && n < |states|
    requires forall k :: 0 <= k < |events| ==> EventFits(bill, states[k], events[k])
    ensures Settled(bill, states[n])
  {
    hide Settled, EventFits, Follows;
    if n > 0 {
      SettledSoFar(bill, states, events, n - 1);
      StepSettledExactlyWhen(bill, states[n - 1], events[n - 1], states[n]);
    }
  }

  /** Over every run of returns, deletions and restorings nothing is ever over-returned if and only if
      each of them fitted when it was made. */
  lemma AlwaysSettledExactlyWhen(bill: Bill, states: seq<seq<Note>>, events: seq<Event>)
    requires IsRun(bill, states, events) && Settled(bill, states[0])
    ensures (forall n :: 0 <= n < |states| ==> Settled(bill, states[n]))
            <==> (forall n :: 0 <= n < |events| ==> EventFits(bill, states[n], events[n]))
  {
    hide Settled, EventFits, Follows;
    if forall n :: 0 <= n < |states| ==> Settled(bill, states[n]) {
      forall n | 0 <= n < |events| ensures EventFits(bill, states[n], events[n]) {
        assert Settled(bill, states[n]) && Settled(bill, states[n + 1]);
        StepSettledExactlyWhen(bill, states[n], events[n], states[n + 1]);
      }
    }
    if forall n :: 0 <= n < |events| ==> EventFits(bill, states[n], events[n]) {
      forall n | 0 <= n < |states| ensures Settled(bill, states[n]) { SettledSoFar(bill, states, events, n); }
    }
  }
}
