/**
  Quantities are stored in thousandths.  So a request that asks for each line once, or in thousandths,
  never brings back more than was sold, linked and unlinked returns together; one that asks for a
  line several times in smaller parts can.
*/
module ReturnGrid {
  import opened Wrappers
  import opened Sums
  import opened Refunds
  import opened Returns
  import opened OverReturn

  /** A whole number of thousandths. */
  predicate Milli(x: real) { (x * 1000.0).Floor as real == x * 1000.0 }

  lemma WholeIsMilli(x: real, n: int)
    requires x * 1000.0 == n as real
    ensures Milli(x)
  {
  }

  lemma MilliAdd(a: real, b: real)
    requires Milli(a) && Milli(b)
    ensures Milli(a + b) && Milli(a - b)
  {
    var m, n := (a * 1000.0).Floor, (b * 1000.0).Floor;
    WholeIsMilli(a + b, m + n);
    WholeIsMilli(a - b, m - n);
  }

  lemma HalfAboveWhole(n: int)
    ensures (n as real + 0.5).Floor == n
  {
  }

  /** What is stored is in thousandths, and what is in thousandths is stored as it is. */
  lemma StoredIsMilli(x: real)
    ensures Milli(ToThousandths(x))
    ensures Milli(x) ==> ToThousandths(x) == x
  {
    var m := (x * 1000.0 + 0.5).Floor;
    assert ToThousandths(x) == m as real / 1000.0;
    WholeIsMilli(ToThousandths(x), m);
    if Milli(x) { HalfAboveWhole((x * 1000.0).Floor); }
  }

  /** The tolerance of the check is lost in storing. */
  lemma StoringHidesTolerance(x: real, remaining: real)
    requires Milli(remaining) && x <= remaining + EPS
    ensures ToThousandths(x) <= remaining
  {
    var m := (remaining * 1000.0).Floor;
    assert x * 1000.0 + 0.5 < m as real + 1.0;
  }

  /** On the grid the tolerance grants nothing. */
  lemma GridGap(a: real, b: real)
    requires Milli(a) && Milli(b) && a <= b + EPS
    ensures a <= b
  {
    var m, n := (a * 1000.0).Floor, (b * 1000.0).Floor;
    assert m <= n;
  }

  lemma {:induction false} MilliSum<T>(xs: seq<T>, f: T -> real)
    requires forall k :: 0 <= k < |xs| ==> Milli(f(xs[k]))
    ensures Milli(Sum(xs, f))
  {
    if |xs| > 0 {
      MilliSum(xs[..|xs| - 1], f);
      MilliAdd(Sum(xs[..|xs| - 1], f), f(xs[|xs| - 1]));
    } else {
      WholeIsMilli(0.0, 0);
    }
  }

  // ----- Stored notes -----

  predicate NoteOnGrid(n: Note) { forall j :: 0 <= j < |n.lines| ==> Milli(n.lines[j].quantity) }

  /** Quantities as the database keeps them. */
  predicate OnGrid(bill: Bill, notes: seq<Note>) {
    && (forall i :: 0 <= i < |bill.lines| ==> Milli(bill.lines[i].quantity))
    && (forall k :: 0 <= k < |notes| ==> NoteOnGrid(notes[k]))
  }

  lemma NotePartsOnGrid(n: Note, i: nat, s: Signature)
    requires NoteOnGrid(n)
    ensures Milli(NoteLinked(i)(n)) && Milli(NoteLegacy(s)(n))
  {
    WholeIsMilli(0.0, 0);
    MilliSum(n.lines, LinkedPart(i));
    MilliSum(n.lines, LegacyPart(s));
  }

  lemma TotalsOnGrid(bill: Bill, notes: seq<Note>, i: nat, s: Signature)
    requires OnGrid(bill, notes)
    ensures Milli(Linked(Live(notes), i)) && Milli(Legacy(Live(notes), s))
  {
    ByNote(notes, i, s);
    forall k | 0 <= k < |notes| ensures Milli(NoteLinked(i)(notes[k])) && Milli(NoteLegacy(s)(notes[k])) {
      assert NoteOnGrid(notes[k]);
      NotePartsOnGrid(notes[k], i, s);
    }
    MilliSum(notes, NoteLinked(i));
    MilliSum(notes, NoteLegacy(s));
  }

  lemma AtLeastZeroMilli(x: real)
    requires Milli(x)
    ensures Milli(AtLeastZero(x))
  {
    if x <= 0.0 { WholeIsMilli(0.0, 0); }
  }

  lemma RoomOnGrid(bill: Bill, notes: seq<Note>, i: nat)
    requires OnGrid(bill, notes) && i < |bill.lines|
    ensures Milli(Room(bill.lines, Live(notes), i))
  {
    TotalsOnGrid(bill, notes, i, ByName("", 0.0));
    hide Milli, Linked, Live;
    MilliAdd(bill.lines[i].quantity, Linked(Live(notes), i));
    AtLeastZeroMilli(bill.lines[i].quantity - Linked(Live(notes), i));
  }

  lemma {:induction false} RoomForOnGrid(bill: Bill, notes: seq<Note>, s: Signature, k: nat)
    requires OnGrid(bill, notes) && k <= |bill.lines|
    ensures Milli(RoomFor(bill.lines, Live(notes), s, k))
  {
    if k == 0 {
      WholeIsMilli(0.0, 0);
    } else {
      RoomForOnGrid(bill, notes, s, k - 1);
      RoomOnGrid(bill, notes, k - 1);
      MilliAdd(RoomFor(bill.lines, Live(notes), s, k - 1), Room(bill.lines, Live(notes), k - 1));
    }
  }

  lemma AttributedOnGrid(bill: Bill, notes: seq<Note>, i: nat)
    requires OnGrid(bill, notes) && i < |bill.lines|
    ensures Milli(Attributed(bill.lines, Live(notes), i))
  {
    var s := LineSig(bill.lines[i]);
    TotalsOnGrid(bill, notes, i, s);
    RoomForOnGrid(bill, notes, s, i);
    RoomOnGrid(bill, notes, i);
    GreedyHandsOut(bill.lines, Live(notes), s, i);
    hide Milli, Live, Legacy, Room, RoomFor;
    AtLeastZeroMilli(Legacy(Live(notes), s));
    MilliAdd(Legacy(Live(notes), s), Given(bill.lines, Live(notes), s, i));
    AtLeastZeroMilli(Legacy(Live(notes), s) - Given(bill.lines, Live(notes), s, i));
  }

  lemma RemainingOnGrid(bill: Bill, notes: seq<Note>, i: nat)
    requires OnGrid(bill, notes) && i < |bill.lines|
    ensures Milli(bill.lines[i].quantity - Returned(bill.lines, Live(notes), i))
  {
    TotalsOnGrid(bill, notes, i, ByName("", 0.0));
    AttributedOnGrid(bill, notes, i);
    MilliAdd(Linked(Live(notes), i), Attributed(bill.lines, Live(notes), i));
    MilliAdd(bill.lines[i].quantity, Returned(bill.lines, Live(notes), i));
  }

  lemma {:induction false} BacksOnGrid(lines: seq<SoldLine>, asks: seq<Ask>)
    ensures forall j :: 0 <= j < |BacksOf(lines, asks)| ==> Milli(BacksOf(lines, asks)[j].quantity)
  {
    if |asks| > 0 {
      BacksOnGrid(lines, asks[..|asks| - 1]);
      StoredIsMilli(asks[|asks| - 1].quantity);
    }
  }

  // ----- Careful requests -----

  predicate InThousandths(asks: seq<Ask>, i: nat) {
    forall k :: 0 <= k < |asks| && asks[k].line == i && asks[k].quantity > 0.0 ==> Milli(asks[k].quantity)
  }

  /** Each line is asked for once, or in thousandths. */
  ghost predicate Careful(asks: seq<Ask>) { forall i: nat :: CarefulAbout(asks, i) }

  predicate CarefulAbout(asks: seq<Ask>, i: nat) { Times(asks, i) <= 1 || InThousandths(asks, i) }

  lemma {:induction false} ThousandthsAreStored(asks: seq<Ask>, i: nat)
    requires InThousandths(asks, i)
    ensures StoredAsked(asks, i) == Asked(asks, i) && Milli(Asked(asks, i))
  {
    if |asks| > 0 {
      var n := |asks| - 1;
      assert forall k :: 0 <= k < n ==> asks[..n][k] == asks[k];
      ThousandthsAreStored(asks[..n], i);
      if asks[n].line == i && asks[n].quantity > 0.0 {
        StoredIsMilli(asks[n].quantity);
        MilliAdd(Asked(asks[..n], i), asks[n].quantity);
      }
    } else {
      WholeIsMilli(0.0, 0);
    }
  }

  lemma {:induction false} AskedOnceIsStored(asks: seq<Ask>, i: nat)
    requires Times(asks, i) <= 1
    ensures StoredAsked(asks, i) == if Times(asks, i) == 0 then 0.0 else ToThousandths(Asked(asks, i))
  {
    if |asks| > 0 {
      AskedOnceIsStored(asks[..|asks| - 1], i);
      StoredIsNearAsked(asks[..|asks| - 1], i);
    }
  }

  lemma StoredWithinRemaining(bill: Bill, notes: seq<Note>, asks: seq<Ask>, i: nat)
    requires Settled(bill, notes) && OnGrid(bill, notes) && CarefulAbout(asks, i) && i < |bill.lines|
    requires Fits(Remaining(bill.lines, Counted(bill.lines, Live(notes))), asks)
    ensures StoredAsked(asks, i) <= bill.lines[i].quantity - Returned(bill.lines, Live(notes), i)
    ensures Returned(bill.lines, Live(notes), i) >= Linked(Live(notes), i)
  {
    var remaining := Remaining(bill.lines, Counted(bill.lines, Live(notes)));
    assert remaining[i] == bill.lines[i].quantity - Returned(bill.lines, Live(notes), i) >= 0.0;
    AskedFits(remaining, asks, i);
    StoredIsNearAsked(asks, i);
    RemainingOnGrid(bill, notes, i);
    if Asked(asks, i) > 0.0 {
      if Times(asks, i) <= 1 {
        AskedOnceIsStored(asks, i);
        StoringHidesTolerance(Asked(asks, i), remaining[i]);
      } else {
        ThousandthsAreStored(asks, i);
        GridGap(Asked(asks, i), remaining[i]);
      }
    }
  }

  lemma {:induction false} StoredForWithinRemaining(bill: Bill, notes: seq<Note>, asks: seq<Ask>, s: Signature, k: nat)
    requires Settled(bill, notes) && OnGrid(bill, notes) && Careful(asks) && k <= |bill.lines|
    requires Fits(Remaining(bill.lines, Counted(bill.lines, Live(notes))), asks)
    ensures StoredFor(bill.lines, asks, s, k) <= RemainingFor(bill.lines, Live(notes), s, k)
  {
    if k > 0 {
      StoredForWithinRemaining(bill, notes, asks, s, k - 1);
      assert CarefulAbout(asks, k - 1);
      StoredWithinRemaining(bill, notes, asks, k - 1);
    }
  }

  /** What a careful request stores fits, if the request was accepted. */
  lemma CarefulFits(bill: Bill, notes: seq<Note>, asks: seq<Ask>)
    requires Settled(bill, notes) && OnGrid(bill, notes) && Careful(asks)
    requires Fits(Remaining(bill.lines, Counted(bill.lines, Live(notes))), asks)
    ensures StoredFits(bill, notes, asks)
  {
    forall i: nat | i < |bill.lines| ensures StoredAsked(asks, i) <= bill.lines[i].quantity - Linked(Live(notes), i) {
      assert CarefulAbout(asks, i);
      StoredWithinRemaining(bill, notes, asks, i);
    }
    forall s
      ensures StoredFor(bill.lines, asks, s, |bill.lines|) <= RemainingFor(bill.lines, Live(notes), s, |bill.lines|)
    {
      StoredForWithinRemaining(bill, notes, asks, s, |bill.lines|);
    }
  }

  lemma RefundStaysSettled(bill: Bill, notes: seq<Note>, asks: seq<Ask>)
    requires Settled(bill, notes) && OnGrid(bill, notes) && Careful(asks)
    requires Fits(Remaining(bill.lines, Counted(bill.lines, Live(notes))), asks)
    ensures var after := notes + [Note(false, BacksOf(bill.lines, asks))]; Settled(bill, after) && OnGrid(bill, after)
  {
    var n := Note(false, BacksOf(bill.lines, asks));
    var after := notes + [n];
    BacksOnGrid(bill.lines, asks);
    assert NoteOnGrid(n);
    forall k | 0 <= k < |after| ensures NoteOnGrid(after[k]) { if k < |notes| { assert after[k] == notes[k]; } }
    CarefulFits(bill, notes, asks);
    StaysSettledExactlyWhen(bill, notes, asks);
  }

  /** Changing a deletion mark changes no quantity. */
  lemma MarksStayOnGrid(bill: Bill, notes: seq<Note>, k: nat, deleted: bool)
    requires OnGrid(bill, notes) && k < |notes|
    ensures OnGrid(bill, notes[k := notes[k].(deleted := deleted)])
  {
    assert forall j :: 0 <= j < |notes| ==> NoteOnGrid(notes[j]);
  }

  lemma RequestIsCareful(bill: Bill, notes: seq<Note>, body: Body)
    requires Careful(body.parts)
    ensures Careful(Requested(bill.lines, notes, body))
  {
    var remaining := Remaining(bill.lines, Counted(bill.lines, Live(notes)));
    var asks := Requested(bill.lines, notes, body);
    if |body.parts| == 0 {
      forall i: nat ensures CarefulAbout(asks, i) {
        RestAsksOnce(remaining, (j: nat) => |body.lineIds| == 0 || j in body.lineIds, |remaining|, i);
      }
    }
  }

  /** Nothing is restored that no longer fits. */
  ghost predicate CarefulEvent(bill: Bill, before: seq<Note>, e: Event) {
    && (e.Refunding? ==> Careful(e.body.parts))
    && (e.Restoring? && e.k < |before| ==> RestoreFits(bill, before, e.k))
  }

  lemma StepStaysSettled(bill: Bill, before: seq<Note>, e: Event, after: seq<Note>)
    requires Settled(bill, before) && OnGrid(bill, before) && CarefulEvent(bill, before, e)
             && Follows(bill, before, e, after)
    ensures Settled(bill, after) && OnGrid(bill, after)
  {
    hide Settled, OnGrid, Careful, RestoreFits;
    match e
    case Refunding(body, outcome) =>
      RequestIsCareful(bill, before, body);
      if outcome.Credited? { RefundStaysSettled(bill, before, Requested(bill.lines, before, body)); }
    case Removing(k) =>
      RemovalStaysSettled(bill, before, k);
      MarksStayOnGrid(bill, before, k, true);
    case Restoring(k) =>
      RestoringStaysSettledExactlyWhen(bill, before, k);
      MarksStayOnGrid(bill, before, k, false);
  }

  /** Over every sequence of returns, deletions of credit notes and restorings that fit, in which each
      request asks for a line once or in thousandths, as the dialog does, returns of a kind of goods,
      linked or not, never add up to more than was sold of it. */
  lemma {:induction false} NeverMoreThanSold(bill: Bill, states: seq<seq<Note>>, events: seq<Event>, n: nat)
    requires IsRun(bill, states, events) && Settled(bill, states[0]) && OnGrid(bill, states[0]) && n < |states|
    requires forall k :: 0 <= k < |events| ==> CarefulEvent(bill, states[k], events[k])
    ensures Settled(bill, states[n]) && OnGrid(bill, states[n])
  {
    if n > 0 {
      NeverMoreThanSold(bill, states, events, n - 1);
      assert Follows(bill, states[n - 1], events[n - 1], states[n])
             && CarefulEvent(bill, states[n - 1], events[n - 1]);
      StepStaysSettled(bill, states[n - 1], events[n - 1], states[n]);
    }
  }

  // ----- Many small parts, and restoring -----

  /** Ten pieces at a price of one. */
  function TenPieces(): Bill {
    Bill([SoldLine(Some(0), "Pen", 10.0, 1.0, 0.0, None, 0.0)], None, 0.0, 0.0, 0.0, 10.0)
  }

  function PenBack(source: Option<nat>, quantity: real): Note {
    Note(false, [Back(source, Some(0), "Pen", 1.0, quantity)])
  }

  /** The same line asked for n times, half a thousandth each time. */
  function Halves(n: nat): seq<Ask> { if n == 0 then [] else Halves(n - 1) + [HALF] }

  const HALF := Ask(0, 0.0005)

  lemma OneHalf()
    ensures AskedPart(0)(HALF) == 0.0005 && StoredPart(0)(HALF) == 0.001
  {
    HalfAboveWhole(0);
    assert (0.0005 * 1000.0 + 0.5).Floor == 1;
  }

  lemma HalfWorth()
    ensures Worth(TenPieces().lines)(HALF) == 0.0005
  {
  }

  lemma {:induction false} HalvesAsked(n: nat)
    ensures |Halves(n)| == n && forall k :: 0 <= k < n ==> Halves(n)[k] == HALF
    ensures Asked(Halves(n), 0) == 0.0005 * n as real && StoredAsked(Halves(n), 0) == 0.001 * n as real
  {
    if n > 0 {
      OneHalf();
      HalvesAsked(n - 1);
      hide AskedPart, StoredPart;
      SumAppend(Halves(n - 1), HALF, AskedPart(0));
      SumAppend(Halves(n - 1), HALF, StoredPart(0));
    }
  }

  lemma {:induction false} HalvesWorth(lines: seq<SoldLine>, n: nat)
    requires Worth(lines)(HALF) == 0.0005
    ensures Sum(Halves(n), Worth(lines)) == 0.0005 * n as real
  {
    hide Worth;
    if n > 0 {
      HalvesWorth(lines, n - 1);
      SumAppend(Halves(n - 1), HALF, Worth(lines));
    }
  }

  lemma HalvesAreBuilt(n: nat)
    requires n > 0
    ensures |BacksOf(TenPieces().lines, Halves(n))| > 0
  {
    HalvesAsked(n);
    assert Halves(n)[n - 1] == HALF;
  }

  lemma NothingReturned()
    ensures Linked(Live([]), 0) == 0.0 && Returned(TenPieces().lines, Live([]), 0) == 0.0
  {
  }

  lemma HalvesFit(n: nat)
    requires n <= 20_000
    ensures Fits(Remaining(TenPieces().lines, Counted(TenPieces().lines, Live([]))), Halves(n))
  {
    NothingReturned();
    HalvesAsked(n);
    var remaining := Remaining(TenPieces().lines, Counted(TenPieces().lines, Live([])));
    assert |remaining| == 1 && remaining[0] == 10.0;
    hide Halves, Counted, Asked;
    assert AskFits(remaining, Halves(n), 0);
  }

  /** A request for explicit quantities that fit is refunded what they are worth, in whole cents. */
  lemma PartsRefunded(bill: Bill, notes: seq<Note>, asks: seq<Ask>)
    requires |asks| > 0 && Fits(Remaining(bill.lines, Counted(bill.lines, Live(notes))), asks)
    requires |BacksOf(bill.lines, asks)| > 0 && Sum(asks, Worth(bill.lines)) >= 0.0
    ensures var worth := Sum(asks, Worth(bill.lines));
            RefundSpec(bill, notes, Body(asks, [], true, None, true), Credited(worth, AtLeastZero(Floored(worth))),
                       notes + [Note(false, BacksOf(bill.lines, asks))])
  {
    var worth := Sum(asks, Worth(bill.lines));
    FlooredCashAccepted(worth);
    hide Fits, Remaining, Counted, BacksOf, Worth, Floored, Accepted;
    assert Requested(bill.lines, notes, Body(asks, [], true, None, true)) == asks;
  }

  function AfterHalves(n: nat): seq<Note> { [] + [Note(false, BacksOf(TenPieces().lines, Halves(n)))] }

  lemma HalvesLinked(n: nat)
    ensures Linked(Live(AfterHalves(n)), 0) == 0.001 * n as real
  {
    HalvesAsked(n);
    NothingReturned();
    NoteAdds(TenPieces().lines, [], Halves(n), 0, ByName("", 0.0));
  }

  lemma HalvesAccepted(n: nat)
    requires 0 < n <= 20_000
    ensures var worth := Sum(Halves(n), Worth(TenPieces().lines));
            && worth == 0.0005 * n as real
            && RefundSpec(TenPieces(), [], Body(Halves(n), [], true, None, true),
                          Credited(worth, AtLeastZero(Floored(worth))), AfterHalves(n))
  {
    HalvesAsked(n);
    HalfWorth();
    HalvesWorth(TenPieces().lines, n);
    HalvesAreBuilt(n);
    HalvesFit(n);
    hide RefundSpec, Fits, Counted, Remaining, BacksOf, Halves, Floored, Worth, TenPieces;
    PartsRefunded(TenPieces(), [], Halves(n));
  }

  /** Each half thousandth is stored as a whole one: up to twenty thousand of them are accepted for ten
      pieces, and then twice what was asked for, up to twenty pieces, has come back. */
  lemma HalvesAreStoredDouble(n: nat)
    requires 0 < n <= 20_000
    ensures exists r: Outcome :: r.Credited? && r.total == 0.0005 * n as real
              && RefundSpec(TenPieces(), [], Body(Halves(n), [], true, None, true), r, AfterHalves(n))
    ensures Linked(Live(AfterHalves(n)), 0) == 0.001 * n as real
  {
    HalvesAccepted(n);
    HalvesLinked(n);
    hide RefundSpec, AfterHalves, Halves, Worth, TenPieces, Linked, Live, Floored;
    var worth := Sum(Halves(n), Worth(TenPieces().lines));
    var r := Credited(worth, AtLeastZero(Floored(worth)));
    assert r.total == 0.0005 * n as real;
  }

  /** One credit note of pens, live or deleted. */
  lemma PenTotals(n: Note)
    requires |n.lines| == 1
    ensures NoteLinked(0)(n) == (if n.deleted then 0.0 else LinkedPart(0)(n.lines[0]))
    ensures NoteLegacy(ByItem(0, 1.0))(n) == (if n.deleted then 0.0 else LegacyPart(ByItem(0, 1.0))(n.lines[0]))
  {
    assert n.lines == [n.lines[0]];
    SumOne(n.lines[0], LinkedPart(0));
    SumOne(n.lines[0], LegacyPart(ByItem(0, 1.0)));
  }

  lemma PairTotals(a: Note, b: Note)
    requires |a.lines| == |b.lines| == 1
    ensures Linked(Live([a, b]), 0) == NoteLinked(0)(a) + NoteLinked(0)(b)
  {
    ByNote([a, b], 0, ByItem(0, 1.0));
    assert [a, b] == [a] + [b];
    SumOne(a, NoteLinked(0));
    SumAppend([a], b, NoteLinked(0));
  }

  /** Returning this many pens is accepted and refunded, rounded down. */
  ghost predicate PensComeBack(notes: seq<Note>, quantity: real, after: seq<Note>) {
    RefundSpec(TenPieces(), notes, Body([Ask(0, quantity)], [], true, None, true),
               Credited(quantity, AtLeastZero(Floored(quantity))), after)
  }

  /** So it is whenever this many are linked, this many are not, and enough remain. */
  lemma PenRefund(notes: seq<Note>, quantity: real, linked: real, legacy: real)
    requires Linked(Live(notes), 0) == linked && Legacy(Live(notes), ByItem(0, 1.0)) == legacy && legacy >= 0.0
    requires 0.0 < quantity <= 10.0 - linked - Min(legacy, AtLeastZero(10.0 - linked)) + EPS && Milli(quantity)
    ensures PensComeBack(notes, quantity, notes + [PenBack(Some(0), quantity)])
  {
    var bill, asks := TenPieces(), [Ask(0, quantity)];
    PenAsked(quantity);
    assert Given(bill.lines, Live(notes), ByItem(0, 1.0), 0) == 0.0;
    assert Returned(bill.lines, Live(notes), 0) == linked + Min(legacy, AtLeastZero(10.0 - linked));
    assert AskFits(Remaining(bill.lines, Counted(bill.lines, Live(notes))), asks, 0);
    hide Counted, Remaining, Worth, BacksOf, RefundSpec;
    PartsRefunded(bill, notes, asks);
  }

  lemma PenAsked(quantity: real)
    requires quantity > 0.0 && Milli(quantity)
    ensures var lines, asks := TenPieces().lines, [Ask(0, quantity)];
            && Asked(asks, 0) == quantity && Sum(asks, Worth(lines)) == quantity
            && BacksOf(lines, asks) == PenBack(Some(0), quantity).lines
  {
    var asks := [Ask(0, quantity)];
    assert asks[..0] == [];
    StoredIsMilli(quantity);
    SumOne(asks[0], AskedPart(0));
    SumOne(asks[0], Worth(TenPieces().lines));
  }

  /** Restoring a deleted credit note is not checked: five back, that note deleted, all ten back,
      the first note restored, and fifteen pieces of ten have come back. */
  lemma RestoringOverReturns()
    ensures var five, ten := PenBack(Some(0), 5.0), PenBack(Some(0), 10.0);
            && PensComeBack([five.(deleted := true)], 10.0, [five.(deleted := true), ten])
            && Linked(Live([five.(deleted := true), ten]), 0) == 10.0
            && Linked(Live([five, ten]), 0) == 15.0
            && !RestoreFits(TenPieces(), [five.(deleted := true), ten], 0)
  {
    hide PensComeBack;
    var five, ten := PenBack(Some(0), 5.0), PenBack(Some(0), 10.0);
    var gone := five.(deleted := true);
    PenTotals(gone);
    PenTotals(five);
    PenTotals(ten);
    PairTotals(gone, ten);
    PairTotals(five, ten);
    TenAfterDeletedFive(gone, ten);
    SumOne(five.lines[0], LinkedPart(0));
    assert gone.lines == [five.lines[0]];
  }

  lemma TenAfterDeletedFive(gone: Note, ten: Note)
    requires gone == PenBack(Some(0), 5.0).(deleted := true) && ten == PenBack(Some(0), 10.0)
    ensures PensComeBack([gone], 10.0, [gone, ten])
  {
    hide PensComeBack;
    PenTotals(gone);
    ByNote([gone], 0, ByItem(0, 1.0));
    SumOne(gone, NoteLinked(0));
    SumOne(gone, NoteLegacy(ByItem(0, 1.0)));
    WholeIsMilli(10.0, 10000);
    PenRefund([gone], 10.0, 0.0, 0.0);
    assert [gone] + [ten] == [gone, ten];
  }
}
