/** What the return dialog shows as already returned.  Its copy of the calculation reads deleted credit
    notes as well. */
module ReturnDialog {
  import opened Sums
  import opened Refunds
  import opened Returns
  import opened OverReturn

  /** With no credit note deleted the two copies of the calculation read the same notes. */
  lemma {:induction false} NothingDeleted(notes: seq<Note>)
    requires forall k :: 0 <= k < |notes| ==> !notes[k].deleted
    ensures Live(notes) == notes
  {
    if |notes| > 0 { NothingDeleted(notes[..|notes| - 1]); }
  }

  /** What deleted notes returned of line i through links, and of goods s without. */
  function NoteGone(i: nat): Note -> real { (n: Note) => if n.deleted then Sum(n.lines, LinkedPart(i)) else 0.0 }

  function NoteGoneUnlinked(s: Signature): Note -> real {
    (n: Note) => if n.deleted then Sum(n.lines, LegacyPart(s)) else 0.0
  }

  lemma {:induction false} DeletedParts(notes: seq<Note>, i: nat, s: Signature)
    ensures Linked(notes, i) == Linked(Live(notes), i) + Sum(notes, NoteGone(i))
    ensures Legacy(notes, s) == Legacy(Live(notes), s) + Sum(notes, NoteGoneUnlinked(s))
  {
    ByNote(notes, i, s);
    if |notes| > 0 {
      var n := |notes| - 1;
      DeletedParts(notes[..n], i, s);
      ByNote(notes[..n], i, s);
      SumConcat(Flat(notes[..n]), notes[n].lines, LinkedPart(i));
      SumConcat(Flat(notes[..n]), notes[n].lines, LegacyPart(s));
    }
  }

  predicate NoneNegative(notes: seq<Note>) { forall k :: 0 <= k < |notes| ==> NotNegative(notes[k]) }

  lemma MoreIsShown(notes: seq<Note>, i: nat, s: Signature)
    requires NoneNegative(notes)
    ensures Linked(notes, i) >= Linked(Live(notes), i) && Legacy(notes, s) >= Legacy(Live(notes), s) >= 0.0
  {
    DeletedParts(notes, i, s);
    ByNote(notes, i, s);
    LegacyNotNegative(notes, s);
    forall k | 0 <= k < |notes| ensures NoteGone(i)(notes[k]) >= 0.0 && NoteGoneUnlinked(s)(notes[k]) >= 0.0 {
      PartsNotNegative(notes[k], i, s);
    }
    SumPrefix(notes, |notes|, NoteGone(i));
    SumPrefix(notes, |notes|, NoteGoneUnlinked(s));
  }

  lemma {:induction false} LessRoomIsSeen(lines: seq<SoldLine>, notes: seq<Note>, s: Signature, k: nat)
    requires k <= |lines| && NoneNegative(notes)
    ensures RoomFor(lines, notes, s, k) <= RoomFor(lines, Live(notes), s, k)
    ensures LinkedFor(lines, notes, s, k) >= LinkedFor(lines, Live(notes), s, k)
  {
    if k > 0 {
      LessRoomIsSeen(lines, notes, s, k - 1);
      MoreIsShown(notes, k - 1, s);
    }
  }

  /** The dialog never offers more than can be returned: deleted notes only make it show more as
      returned. */
  lemma DialogNeverShowsLess(lines: seq<SoldLine>, notes: seq<Note>, i: nat)
    requires i < |lines| && NoneNegative(notes)
    ensures Returned(lines, notes, i) >= Returned(lines, Live(notes), i)
  {
    var s := LineSig(lines[i]);
    MoreIsShown(notes, i, s);
    LessRoomIsSeen(lines, notes, s, i);
    GreedyHandsOut(lines, notes, s, i);
    GreedyHandsOut(lines, Live(notes), s, i);
  }

  /** What deleted notes returned of these goods, linked or not. */
  function GoneFor(lines: seq<SoldLine>, notes: seq<Note>, s: Signature): real {
    LinkedFor(lines, notes, s, |lines|) + Legacy(notes, s)
    - LinkedFor(lines, Live(notes), s, |lines|) - Legacy(Live(notes), s)
  }

  /** No line of these goods has more returned through links, deleted or not, than was sold. */
  predicate LinksFit(lines: seq<SoldLine>, notes: seq<Note>, s: Signature) {
    forall i: nat :: i < |lines| && LineSig(lines[i]) == s ==> Linked(notes, i) <= lines[i].quantity
  }

  predicate DialogRight(lines: seq<SoldLine>, notes: seq<Note>, s: Signature) {
    forall i: nat :: i < |lines| && LineSig(lines[i]) == s
        ==> Returned(lines, notes, i) == Returned(lines, Live(notes), i)
  }

  /** Where the links fit, what is shown for goods adds up to what came back, or to all that was sold. */
  lemma ShownInAll(lines: seq<SoldLine>, notes: seq<Note>, s: Signature)
    requires LinksFit(lines, notes, s) && Legacy(notes, s) >= 0.0
    ensures RemainingFor(lines, notes, s, |lines|)
         == AtLeastZero(Sold(lines, s, |lines|) - LinkedFor(lines, notes, s, |lines|) - Legacy(notes, s))
  {
    RoomIsSoldLessLinked(lines, notes, s, |lines|);
    GreedyHandsOut(lines, notes, s, |lines|);
  }

  lemma {:induction false} SameRemaining(lines: seq<SoldLine>, notes: seq<Note>, s: Signature, k: nat)
    requires k <= |lines| && DialogRight(lines, notes, s)
    ensures RemainingFor(lines, notes, s, k) == RemainingFor(lines, Live(notes), s, k)
  {
    if k > 0 { SameRemaining(lines, notes, s, k - 1); }
  }

  /** If nothing remains in all, nothing remains of any line, where no line has less than nothing. */
  lemma {:induction false} NothingRemains(lines: seq<SoldLine>, notes: seq<Note>, s: Signature, k: nat, i: nat)
    requires i < k <= |lines| && LineSig(lines[i]) == s && LinksFit(lines, notes, s)
    ensures RemainingFor(lines, notes, s, k) >= lines[i].quantity - Returned(lines, notes, i) >= 0.0
  {
    if k - 1 > i {
      NothingRemains(lines, notes, s, k - 1, i);
    } else {
      RemainsNotNegative(lines, notes, s, k - 1);
    }
  }

  lemma {:induction false} RemainsNotNegative(lines: seq<SoldLine>, notes: seq<Note>, s: Signature, k: nat)
    requires k <= |lines| && LinksFit(lines, notes, s)
    ensures RemainingFor(lines, notes, s, k) >= 0.0
  {
    if k > 0 { RemainsNotNegative(lines, notes, s, k - 1); }
  }

  lemma {:induction false} NothingGone(lines: seq<SoldLine>, notes: seq<Note>, s: Signature, k: nat, i: nat)
    requires i < k <= |lines| && LineSig(lines[i]) == s && NoneNegative(notes)
    ensures LinkedFor(lines, notes, s, k) - LinkedFor(lines, Live(notes), s, k) >= Linked(notes, i)
            - Linked(Live(notes), i)
  {
    if k - 1 > i {
      NothingGone(lines, notes, s, k - 1, i);
      MoreIsShown(notes, k - 1, s);
    } else {
      LessRoomIsSeen(lines, notes, s, k - 1);
    }
  }

  lemma {:induction false} SameRoom(lines: seq<SoldLine>, notes: seq<Note>, s: Signature, k: nat)
    requires k <= |lines|
    requires forall i: nat :: i < |lines| && LineSig(lines[i]) == s ==> Linked(notes, i) == Linked(Live(notes), i)
    ensures RoomFor(lines, notes, s, k) == RoomFor(lines, Live(notes), s, k)
  {
    if k > 0 { SameRoom(lines, notes, s, k - 1); }
  }

  lemma RightIfNothingGone(bill: Bill, notes: seq<Note>, s: Signature)
    requires NoneNegative(notes) && GoneFor(bill.lines, notes, s) == 0.0
    ensures DialogRight(bill.lines, notes, s)
  {
    var lines := bill.lines;
    MoreIsShown(notes, 0, s);
    LessRoomIsSeen(lines, notes, s, |lines|);
    forall i: nat | i < |lines| && LineSig(lines[i]) == s ensures Linked(notes, i) == Linked(Live(notes), i) {
      NothingGone(lines, notes, s, |lines|, i);
      MoreIsShown(notes, i, s);
    }
    forall i: nat | i < |lines| && LineSig(lines[i]) == s
      ensures Returned(lines, notes, i) == Returned(lines, Live(notes), i)
    {
      SameRoom(lines, notes, s, i);
      GreedyHandsOut(lines, notes, s, i);
      GreedyHandsOut(lines, Live(notes), s, i);
    }
  }

  lemma RightIfAllReturned(bill: Bill, notes: seq<Note>, s: Signature)
    requires Settled(bill, notes) && LinksFit(bill.lines, notes, s)
    requires AllReturned(bill, notes, s) == Sold(bill.lines, s, |bill.lines|)
    ensures DialogRight(bill.lines, notes, s)
  {
    var lines := bill.lines;
    RemainingIsExact(bill, notes, s);
    forall i: nat | i < |lines| && LineSig(lines[i]) == s
      ensures Returned(lines, notes, i) == Returned(lines, Live(notes), i)
    {
      NothingRemains(lines, Live(notes), s, |lines|, i);
      NothingRemains(lines, notes, s, |lines|, i);
      DialogNeverShowsLess(lines, notes, i);
    }
  }

  lemma WrongOtherwise(bill: Bill, notes: seq<Note>, s: Signature)
    requires Settled(bill, notes) && DialogRight(bill.lines, notes, s)
    ensures LinksFit(bill.lines, notes, s)
    ensures GoneFor(bill.lines, notes, s) == 0.0 || AllReturned(bill, notes, s) == Sold(bill.lines, s, |bill.lines|)
  {
    var lines := bill.lines;
    forall i: nat | i < |lines| && LineSig(lines[i]) == s ensures Linked(notes, i) <= lines[i].quantity {
      assert Returned(lines, notes, i) == Returned(lines, Live(notes), i) <= lines[i].quantity;
      MoreIsShown(notes, i, s);
    }
    MoreIsShown(notes, 0, s);
    ShownInAll(lines, notes, s);
    RemainingIsExact(bill, notes, s);
    SameRemaining(lines, notes, s, |lines|);
  }

  /**
    With nothing over-returned, the dialog's figures for a kind of goods are right exactly when deleted
    notes returned none of it, or all of it has come back anyway and no line's links, deleted ones
    counted, exceed what was sold.
  */
  lemma DialogAgreesExactlyWhen(bill: Bill, notes: seq<Note>, s: Signature)
    requires Settled(bill, notes)
    ensures DialogRight(bill.lines, notes, s)
            <==> GoneFor(bill.lines, notes, s) == 0.0
                 || (AllReturned(bill, notes, s) == Sold(bill.lines, s, |bill.lines|) && LinksFit(bill.lines, notes, s))
  {
    if DialogRight(bill.lines, notes, s) {
      WrongOtherwise(bill, notes, s);
    } else {
      if GoneFor(bill.lines, notes, s) == 0.0 { RightIfNothingGone(bill, notes, s); }
      if AllReturned(bill, notes, s) == Sold(bill.lines, s, |bill.lines|) && LinksFit(bill.lines, notes, s) {
        RightIfAllReturned(bill, notes, s);
      }
    }
  }
}
