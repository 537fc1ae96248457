/** Converting an estimate, challan or order as a whole, or a part of it that leaves it open, deleting
    conversions and restoring them, from several places at once: one live conversion of the whole at most. */
module Conversions {
  /** What a source document's status says: free to be converted (ORDER_OPEN is 0, other statuses
      have other numbers), or taken. */
  datatype Status = Free(tag: nat) | Taken

  /** A request to convert: what status it saw, and whether it is for the whole or for a part that leaves the
      source open; it has claimed; it is over. */
  datatype Request = Saw(status: Status, whole: bool) | Claimed(status: Status, whole: bool) | Over

  /** A conversion, and the deletions and restorings of it that have looked but not yet committed. */
  datatype Conversion = Conversion(live: bool, deleting: nat, restoring: nat)

  /** `made` are the conversions of the whole, `parts` the number of live ones of a part. */
  datatype World = World(status: Status, requests: seq<Request>, made: seq<Conversion>, parts: nat)

  datatype Event =
    | Look(whole: bool) | Claim(r: nat) | Make(r: nat) | Release(r: nat)
    | LookDelete(c: nat) | CommitDelete(c: nat) | LookRestore(c: nat) | CommitRestore(c: nat)
    | DeletePart

  predicate Enabled(w: World, e: Event) {
    match e
    case Look(whole) => w.status.Free?
    case Claim(r) => r < |w.requests| && w.requests[r].Saw?
    case Make(r) => r < |w.requests| && w.requests[r].Claimed?
    case Release(r) => r < |w.requests| && w.requests[r].Claimed?
    case LookDelete(c) => c < |w.made| && w.made[c].live
    case CommitDelete(c) => c < |w.made| && w.made[c].deleting > 0
    case LookRestore(c) => c < |w.made| && !w.made[c].live
    case CommitRestore(c) => c < |w.made| && w.made[c].restoring > 0
    case DeletePart => w.parts > 0
  }

  function Step(w: World, e: Event): World
    requires Enabled(w, e)
  {
    match e
    case Look(whole) => w.(requests := w.requests + [Saw(w.status, whole)])
    case Claim(r) =>
      var q := w.requests[r];
      if w.status == q.status then
        w.(status := if q.whole then Taken else w.status, requests := w.requests[r := Claimed(q.status, q.whole)])
      else
        w.(requests := w.requests[r := Over])
    case Make(r) =>
      var q := w.requests[r];
      w.(requests := w.requests[r := Over], made := if q.whole then w.made + [NEW] else w.made,
         parts := if q.whole then w.parts else w.parts + 1)
    case Release(r) => w.(status := w.requests[r].status, requests := w.requests[r := Over])
    case LookDelete(c) => w.(made := w.made[c := w.made[c].(deleting := w.made[c].deleting + 1)])
    case CommitDelete(c) =>
      w.(status := Free(0), made := w.made[c := w.made[c].(live := false, deleting := w.made[c].deleting - 1)])
    case LookRestore(c) => w.(made := w.made[c := w.made[c].(restoring := w.made[c].restoring + 1)])
    case CommitRestore(c) =>
      w.(made := w.made[c := w.made[c].(live := true, restoring := w.made[c].restoring - 1)])
    case DeletePart => w.(status := Free(0), parts := w.parts - 1)
  }

  const NEW := Conversion(true, 0, 0)

  predicate Open(q: Request) { q.Claimed? && q.whole }

  function OpenCount(qs: seq<Request>): nat {
    if |qs| == 0 then 0 else OpenCount(qs[..|qs| - 1]) + (if Open(qs[|qs| - 1]) then 1 else 0)
  }

  function LiveCount(cs: seq<Conversion>): nat {
    if |cs| == 0 then 0 else LiveCount(cs[..|cs| - 1]) + (if cs[|cs| - 1].live then 1 else 0)
  }

  function Initial(tag: nat): World { World(Free(tag), [], [], 0) }

  function Play(tag: nat, events: seq<Event>): World {
    if |events| == 0 then Initial(tag)
    else
      var before := Play(tag, events[..|events| - 1]);
      if Enabled(before, events[|events| - 1]) then Step(before, events[|events| - 1]) else before
  }

  /** One conversion of the whole live or on its way if the source is marked as taken, none if it is free; and
      every request saw the source free. */
  ghost predicate Balanced(w: World) {
    && LiveCount(w.made) + OpenCount(w.requests) == (if w.status.Taken? then 1 else 0)
    && (forall r :: 0 <= r < |w.requests| ==> w.requests[r].Over? || w.requests[r].status.Free?)
  }

  lemma {:induction false} OpenUpdate(qs: seq<Request>, r: nat, q: Request)
    requires r < |qs|
    ensures OpenCount(qs[r := q]) == OpenCount(qs) - (if Open(qs[r]) then 1 else 0) + (if Open(q) then 1 else 0)
  {
    var n := |qs| - 1;
    if r == n {
      assert qs[r := q][..n] == qs[..n];
    } else {
      OpenUpdate(qs[..n], r, q);
      assert qs[r := q][..n] == qs[..n][r := q];
    }
  }

  lemma {:induction false} LiveUpdate(cs: seq<Conversion>, r: nat, c: Conversion)
    requires r < |cs|
    ensures LiveCount(cs[r := c]) == LiveCount(cs) - (if cs[r].live then 1 else 0) + (if c.live then 1 else 0)
  {
    var n := |cs| - 1;
    if r == n {
      assert cs[r := c][..n] == cs[..n];
    } else {
      LiveUpdate(cs[..n], r, c);
      assert cs[r := c][..n] == cs[..n][r := c];
    }
  }

  /** Looking, claiming, making, releasing the whole and looking to delete or to restore keep the balance
      whatever else is going on. */
  lemma OtherStepsBalance(w: World, e: Event)
    requires Balanced(w) && Enabled(w, e) && !e.CommitDelete? && !e.CommitRestore? && !e.DeletePart?
    requires e.Release? ==> w.requests[e.r].whole
    ensures Balanced(Step(w, e))
  {
    match e
    case Look(whole) => assert (w.requests + [Saw(w.status, whole)])[..|w.requests|] == w.requests;
    case Claim(r) => OpenUpdate(w.requests, r, Step(w, e).requests[r]);
    case Make(r) =>
      OpenUpdate(w.requests, r, Over);
      assert (w.made + [NEW])[..|w.made|] == w.made;
    case Release(r) => OpenUpdate(w.requests, r, Over);
    case LookDelete(c) => LiveUpdate(w.made, c, w.made[c].(deleting := w.made[c].deleting + 1));
    case LookRestore(c) => LiveUpdate(w.made, c, w.made[c].(restoring := w.made[c].restoring + 1));
  }

  /** When a deletion commits, its conversion is still live, or the source is free anyway; when a
      restoring commits, its conversion is live already; and when one of part is given up or deleted, the
      source is free anyway. */
  predicate InTime(w: World, e: Event) {
    Enabled(w, e) ==>
      && (e.CommitDelete? ==> w.made[e.c].live || w.status.Free?)
      && (e.CommitRestore? ==> w.made[e.c].live)
      && (e.Release? && !w.requests[e.r].whole ==> w.status.Free?)
      && (e.DeletePart? ==> w.status.Free?)
  }

  /** Committing a deletion keeps the balance exactly when it is in time. */
  lemma DeletionBalancesExactlyWhen(w: World, c: nat)
    requires Balanced(w) && Enabled(w, CommitDelete(c))
    ensures Balanced(Step(w, CommitDelete(c))) <==> InTime(w, CommitDelete(c))
  {
    LiveUpdate(w.made, c, w.made[c].(live := false, deleting := w.made[c].deleting - 1));
  }

  /** Restoring a deleted conversion never keeps it: nothing marks the source as taken again. */
  lemma RestoringBalancesExactlyWhen(w: World, c: nat)
    requires Balanced(w) && Enabled(w, CommitRestore(c))
    ensures Balanced(Step(w, CommitRestore(c))) <==> w.made[c].live
  {
    LiveUpdate(w.made, c, w.made[c].(live := true, restoring := w.made[c].restoring - 1));
  }

  /** Giving up or deleting a conversion of part opens the source, whoever has taken it. */
  lemma PartBalancesExactlyWhen(w: World, e: Event)
    requires Balanced(w) && Enabled(w, e) && (e.DeletePart? || (e.Release? && !w.requests[e.r].whole))
    ensures Balanced(Step(w, e)) <==> w.status.Free?
  {
    if e.Release? { OpenUpdate(w.requests, e.r, Over); }
  }

  lemma StepBalancesExactlyWhen(w: World, e: Event)
    requires Balanced(w) && Enabled(w, e)
    ensures Balanced(Step(w, e)) <==> InTime(w, e)
  {
    if e.CommitDelete? {
      DeletionBalancesExactlyWhen(w, e.c);
    } else if e.CommitRestore? {
      RestoringBalancesExactlyWhen(w, e.c);
    } else if e.DeletePart? || (e.Release? && !w.requests[e.r].whole) {
      PartBalancesExactlyWhen(w, e);
    } else {
      OtherStepsBalance(w, e);
    }
  }

  /** After every event of the run, the last one included. */
  ghost predicate AlwaysBalanced(tag: nat, events: seq<Event>) {
    |events| > 0 ==> AlwaysBalanced(tag, events[..|events| - 1]) && Balanced(Play(tag, events))
  }

  /** At every event of the run. */
  predicate AlwaysInTime(tag: nat, events: seq<Event>) {
    |events| > 0 ==>
      AlwaysInTime(tag, events[..|events| - 1]) && InTime(Play(tag, events[..|events| - 1]), events[|events| - 1])
  }

  /**
    An interleaving leaves the source all the way with at most one conversion live or on its way, and
    marked as taken exactly when there is one, if and only if every deletion commits in time, no deleted
    conversion is restored, and none of part is given up or deleted while the source is taken.
  */
  lemma {:induction false} OneConversionExactlyWhen(tag: nat, events: seq<Event>)
    ensures AlwaysBalanced(tag, events) <==> AlwaysInTime(tag, events)
  {
    if |events| > 0 {
      var init, e := events[..|events| - 1], events[|events| - 1];
      OneConversionExactlyWhen(tag, init);
      if AlwaysBalanced(tag, init) {
        LastBalanced(tag, init);
        hide Balanced, LiveCount, OpenCount;
        if Enabled(Play(tag, init), e) { StepBalancesExactlyWhen(Play(tag, init), e); }
      }
    }
  }

  lemma LastBalanced(tag: nat, events: seq<Event>)
    requires AlwaysBalanced(tag, events)
    ensures Balanced(Play(tag, events))
  {
  }

  /** No conversion has two deletions in the air at once. */
  ghost predicate OneDeletionEach(w: World) {
    forall c :: 0 <= c < |w.made| ==> w.made[c].deleting <= 1
  }

  ghost predicate DeletingLive(w: World) {
    forall c :: 0 <= c < |w.made| && w.made[c].deleting > 0 ==> w.made[c].live
  }

  /** Nobody deletes a conversion while another deletion of it is in the air, nobody restores one, and nobody
      converts in part. */
  ghost predicate Considerate(tag: nat, events: seq<Event>) {
    |events| > 0 ==>
      && Considerate(tag, events[..|events| - 1])
      && OneDeletionEach(Play(tag, events)) && !events[|events| - 1].CommitRestore?
      && events[|events| - 1] != Look(false)
  }

  ghost predicate NoParts(w: World) {
    w.parts == 0 && forall r :: 0 <= r < |w.requests| ==> w.requests[r].Over? || w.requests[r].whole
  }

  lemma {:induction false} DeletionsAreOfLive(tag: nat, events: seq<Event>)
    requires Considerate(tag, events)
    ensures DeletingLive(Play(tag, events)) && OneDeletionEach(Play(tag, events)) && NoParts(Play(tag, events))
    ensures AlwaysInTime(tag, events)
  {
    if |events| > 0 { DeletionsAreOfLive(tag, events[..|events| - 1]); }
  }

  /** So it does as long as no conversion is deleted twice at once and none is restored or of part only. */
  lemma OneConversion(tag: nat, events: seq<Event>)
    requires Considerate(tag, events)
    ensures AlwaysBalanced(tag, events)
  {
    DeletionsAreOfLive(tag, events);
    OneConversionExactlyWhen(tag, events);
  }

  // ----- Two live conversions -----

  function Take(events: nat -> Event, n: nat): (es: seq<Event>)
    ensures |es| == n
  {
    if n == 0 then [] else Take(events, n - 1) + [events(n - 1)]
  }

  predicate Goes(worlds: nat -> World, events: nat -> Event, n: nat) {
    Enabled(worlds(n), events(n)) && Step(worlds(n), events(n)) == worlds(n + 1)
  }

  lemma {:induction false} GoesAlong(tag: nat, worlds: nat -> World, events: nat -> Event, n: nat)
    requires worlds(0) == Initial(tag) && forall k: nat :: k < n ==> Goes(worlds, events, k)
    ensures Play(tag, Take(events, n)) == worlds(n)
  {
    if n > 0 {
      GoesAlong(tag, worlds, events, n - 1);
      assert Take(events, n)[..n - 1] == Take(events, n - 1);
      assert Goes(worlds, events, n - 1);
    }
  }

  lemma LiveAppend(cs: seq<Conversion>, c: Conversion)
    ensures LiveCount(cs + [c]) == LiveCount(cs) + (if c.live then 1 else 0)
  {
    assert (cs + [c])[..|cs|] == cs;
  }

  const GONE := Conversion(false, 0, 0)

  /** Two people delete the conversion at the same moment; the second commit opens the source again
      although a new conversion has meanwhile been made of it, and a third is made. */
  function DeletedTwice(): nat -> Event {
    (n: nat) =>
      match n
      case 0 => Look(true)
      case 1 => Claim(0)
      case 2 => Make(0)
      case 3 => LookDelete(0)
      case 4 => LookDelete(0)
      case 5 => CommitDelete(0)
      case 6 => Look(true)
      case 7 => Claim(1)
      case 8 => Make(1)
      case 9 => CommitDelete(0)
      case 10 => Look(true)
      case 11 => Claim(2)
      case _ => Make(2)
  }

  function AfterDeletes(): nat -> World {
    (n: nat) =>
      match n
      case 0 => Initial(0)
      case 1 => World(Free(0), [Saw(Free(0), true)], [], 0)
      case 2 => World(Taken, [Claimed(Free(0), true)], [], 0)
      case 3 => World(Taken, [Over], [NEW], 0)
      case 4 => World(Taken, [Over], [Conversion(true, 1, 0)], 0)
      case 5 => World(Taken, [Over], [Conversion(true, 2, 0)], 0)
      case 6 => World(Free(0), [Over], [Conversion(false, 1, 0)], 0)
      case 7 => World(Free(0), [Over, Saw(Free(0), true)], [Conversion(false, 1, 0)], 0)
      case 8 => World(Taken, [Over, Claimed(Free(0), true)], [Conversion(false, 1, 0)], 0)
      case 9 => World(Taken, [Over, Over], [Conversion(false, 1, 0), NEW], 0)
      case 10 => World(Free(0), [Over, Over], [GONE, NEW], 0)
      case 11 => World(Free(0), [Over, Over, Saw(Free(0), true)], [GONE, NEW], 0)
      case 12 => World(Taken, [Over, Over, Claimed(Free(0), true)], [GONE, NEW], 0)
      case _ => World(Taken, [Over, Over, Over], [GONE, NEW, NEW], 0)
  }

  lemma EarlyDeleteSteps(n: nat)
    requires n < 6
    ensures Goes(AfterDeletes(), DeletedTwice(), n)
  {
  }

  lemma LateDeleteSteps(n: nat)
    requires 6 <= n < 13
    ensures Goes(AfterDeletes(), DeletedTwice(), n)
  {
  }

  lemma TwoDeletionsBreakIt()
    ensures LiveCount(Play(0, Take(DeletedTwice(), 13)).made) == 2
  {
    forall n: nat | n < 13 ensures Goes(AfterDeletes(), DeletedTwice(), n) {
      if n < 6 { EarlyDeleteSteps(n); } else { LateDeleteSteps(n); }
    }
    GoesAlong(0, AfterDeletes(), DeletedTwice(), 13);
    LiveAppend([], GONE);
    LiveAppend([] + [GONE], NEW);
    LiveAppend([] + [GONE] + [NEW], NEW);
    assert AfterDeletes()(13).made == [] + [GONE] + [NEW] + [NEW];
  }

  /** One person, one thing after the other: a conversion is deleted, another is made, and the first is
      restored beside it. */
  function Restored(): nat -> Event {
    (n: nat) =>
      match n
      case 0 => Look(true)
      case 1 => Claim(0)
      case 2 => Make(0)
      case 3 => LookDelete(0)
      case 4 => CommitDelete(0)
      case 5 => Look(true)
      case 6 => Claim(1)
      case 7 => Make(1)
      case 8 => LookRestore(0)
      case _ => CommitRestore(0)
  }

  function AfterRestore(): nat -> World {
    (n: nat) =>
      match n
      case 0 => Initial(0)
      case 1 => World(Free(0), [Saw(Free(0), true)], [], 0)
      case 2 => World(Taken, [Claimed(Free(0), true)], [], 0)
      case 3 => World(Taken, [Over], [NEW], 0)
      case 4 => World(Taken, [Over], [Conversion(true, 1, 0)], 0)
      case 5 => World(Free(0), [Over], [GONE], 0)
      case 6 => World(Free(0), [Over, Saw(Free(0), true)], [GONE], 0)
      case 7 => World(Taken, [Over, Claimed(Free(0), true)], [GONE], 0)
      case 8 => World(Taken, [Over, Over], [GONE, NEW], 0)
      case 9 => World(Taken, [Over, Over], [Conversion(false, 0, 1), NEW], 0)
      case _ => World(Taken, [Over, Over], [NEW, NEW], 0)
  }

  lemma RestoreSteps(n: nat)
    requires n < 10
    ensures Goes(AfterRestore(), Restored(), n)
  {
  }

  lemma RestoringBreaksIt()
    ensures LiveCount(Play(0, Take(Restored(), 10)).made) == 2
  {
    forall n: nat | n < 10 ensures Goes(AfterRestore(), Restored(), n) { RestoreSteps(n); }
    GoesAlong(0, AfterRestore(), Restored(), 10);
    LiveAppend([], NEW);
    LiveAppend([] + [NEW], NEW);
    assert AfterRestore()(10).made == [] + [NEW] + [NEW];
  }

  /** Part of an order is received, then the order is converted as a whole; the part is deleted, and the order,
      open again, is converted as a whole once more. */
  function PartDeleted(): nat -> Event {
    (n: nat) =>
      match n
      case 0 => Look(false)
      case 1 => Claim(0)
      case 2 => Make(0)
      case 3 => Look(true)
      case 4 => Claim(1)
      case 5 => Make(1)
      case 6 => DeletePart
      case 7 => Look(true)
      case 8 => Claim(2)
      case _ => Make(2)
  }

  function AfterParts(): nat -> World {
    (n: nat) =>
      match n
      case 0 => Initial(0)
      case 1 => World(Free(0), [Saw(Free(0), false)], [], 0)
      case 2 => World(Free(0), [Claimed(Free(0), false)], [], 0)
      case 3 => World(Free(0), [Over], [], 1)
      case 4 => World(Free(0), [Over, Saw(Free(0), true)], [], 1)
      case 5 => World(Taken, [Over, Claimed(Free(0), true)], [], 1)
      case 6 => World(Taken, [Over, Over], [NEW], 1)
      case 7 => World(Free(0), [Over, Over], [NEW], 0)
      case 8 => World(Free(0), [Over, Over, Saw(Free(0), true)], [NEW], 0)
      case 9 => World(Taken, [Over, Over, Claimed(Free(0), true)], [NEW], 0)
      case _ => World(Taken, [Over, Over, Over], [NEW, NEW], 0)
  }

  lemma PartSteps(n: nat)
    requires n < 10
    ensures Goes(AfterParts(), PartDeleted(), n)
  {
  }

  lemma DeletedPartBreaksIt()
    ensures LiveCount(Play(0, Take(PartDeleted(), 10)).made) == 2
  {
    forall n: nat | n < 10 ensures Goes(AfterParts(), PartDeleted(), n) { PartSteps(n); }
    GoesAlong(0, AfterParts(), PartDeleted(), 10);
    LiveAppend([], NEW);
    LiveAppend([] + [NEW], NEW);
    assert AfterParts()(10).made == [] + [NEW] + [NEW];
  }
}
