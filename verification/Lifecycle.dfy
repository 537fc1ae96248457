/** One document while requests overlap: charged, converted as a whole or in part, deleted, restored, its status
    overwritten.  A request looks first and writes later; only charging and claiming check again. */
module Lifecycle {
  /** On hold; taken for conversion; or any other status. */
  datatype Status = Held | Taken | Other(tag: nat)

  /** A request and what it has seen: the status to claim, for all of the document or only part of it, or
      whether there were effects to take back or give again.  A charge or claim that went through stays on
      record. */
  datatype Request =
    | Charging | Charged | Claiming(seen: Status, whole: bool) | Claimed(seen: Status)
    | Deleting(posted: bool) | Restoring(posted: bool) | Over

  /** `posts` is how often the document was posted for the first time, `net` how often its effects are in the books. */
  datatype World = World(status: Status, deleted: bool, posts: nat, net: int, requests: seq<Request>)

  datatype Event =
    | LookCharge | LookClaim(whole: bool) | LookDelete | LookRestore
    | Commit(r: nat) | Release(r: nat) | GiveUp(r: nat) | Overwrite(tag: nat)

  predicate Enabled(w: World, e: Event) {
    match e
    case LookCharge => w.status.Held?
    case LookClaim(whole) => !w.status.Taken?
    case LookDelete => !w.deleted
    case LookRestore => w.deleted
    case Commit(r) => r < |w.requests| && !w.requests[r].Over? && !w.requests[r].Charged? && !w.requests[r].Claimed?
    case Release(r) => r < |w.requests| && w.requests[r].Claimed?
    case GiveUp(r) => r < |w.requests| && !w.requests[r].Charged?
    case Overwrite(tag) => true
  }

  function Effects(posted: bool): int { if posted then 1 else 0 }

  /** Charging and claiming go through if the status is still the one seen; claiming part of the document
      writes that status again.  Deleting and restoring take back or give again what there was when they
      looked. */
  function Committed(w: World, q: Request): (World, Request) {
    match q
    case Charging =>
      if w.status.Held? then (w.(status := Other(0), posts := w.posts + 1, net := w.net + 1), Charged) else (w, Over)
    case Claiming(seen, whole) =>
      if w.status == seen then (w.(status := if whole then Taken else seen), Claimed(seen)) else (w, Over)
    case Deleting(posted) => (w.(deleted := true, net := w.net - Effects(posted)), Over)
    case Restoring(posted) => (w.(deleted := false, net := w.net + Effects(posted)), Over)
    case _ => (w, q)
  }

  function Step(w: World, e: Event): World
    requires Enabled(w, e)
  {
    match e
    case LookCharge => w.(requests := w.requests + [Charging])
    case LookClaim(whole) => w.(requests := w.requests + [Claiming(w.status, whole)])
    case LookDelete => w.(requests := w.requests + [Deleting(!w.status.Held?)])
    case LookRestore => w.(requests := w.requests + [Restoring(!w.status.Held?)])
    case Commit(r) =>
      var (w', q) := Committed(w, w.requests[r]);
      w'.(requests := w.requests[r := q])
    case Release(r) => w.(status := w.requests[r].seen, requests := w.requests[r := Over])
    case GiveUp(r) => w.(requests := w.requests[r := Over])
    case Overwrite(tag) => w.(status := Other(tag))
  }

  /** A document put on hold, or posted when it was created. */
  function Initial(held: bool): World {
    if held then World(Held, false, 0, 0, []) else World(Other(0), false, 1, 1, [])
  }

  function Play(held: bool, events: seq<Event>): World {
    if |events| == 0 then Initial(held)
    else
      var before := Play(held, events[..|events| - 1]);
      if Enabled(before, events[|events| - 1]) then Step(before, events[|events| - 1]) else before
  }

  // ----- Posted once -----

  /** Posted for the first time once at most and by one charge at most; and not yet, if it is on hold. */
  ghost predicate Once(w: World) {
    && w.posts <= 1
    && (w.status.Held? ==> w.posts == 0)
    && (forall r :: 0 <= r < |w.requests| && w.requests[r].Charged? ==> w.posts == 1)
    && (forall r, s :: 0 <= r < s < |w.requests| ==> !(w.requests[r].Charged? && w.requests[s].Charged?))
  }

  /** No hold is given back to a bill that has been charged. */
  predicate GivesBackInTime(w: World, e: Event) {
    e.Release? && Enabled(w, e) && w.requests[e.r].seen.Held? ==> w.posts == 0
  }

  lemma CommitOnce(w: World, r: nat)
    requires Once(w) && Enabled(w, Commit(r))
    ensures Once(Step(w, Commit(r)))
  {
  }

  lemma StepOnceExactlyWhen(w: World, e: Event)
    requires Once(w) && Enabled(w, e)
    ensures Once(Step(w, e)) <==> GivesBackInTime(w, e)
  {
    if e.Commit? { CommitOnce(w, e.r); }
  }

  /** A bill on hold again after it was posted is posted again by the next charge. */
  lemma HeldAgainPostsAgain(w: World)
    requires w.status.Held?
    ensures Enabled(w, LookCharge) && Enabled(Step(w, LookCharge), Commit(|w.requests|))
    ensures Step(Step(w, LookCharge), Commit(|w.requests|)).posts == w.posts + 1
  {
  }

  /** After every event of the run, the last one included. */
  ghost predicate AlwaysOnce(held: bool, events: seq<Event>) {
    |events| > 0 ==> AlwaysOnce(held, events[..|events| - 1]) && Once(Play(held, events))
  }

  /** At every event of the run. */
  predicate AlwaysGivesBackInTime(held: bool, events: seq<Event>) {
    |events| > 0 ==>
      && AlwaysGivesBackInTime(held, events[..|events| - 1])
      && GivesBackInTime(Play(held, events[..|events| - 1]), events[|events| - 1])
  }

  lemma LastOnce(held: bool, events: seq<Event>)
    requires AlwaysOnce(held, events)
    ensures Once(Play(held, events))
  {
  }

  /** Over every interleaving of charges, conversions with their releases, deletions, restorings and status
      writes, a document is posted for the first time once at most, and not while it is on hold, if and only if
      no failed conversion gives its hold back to a bill charged meanwhile. */
  lemma {:induction false} PostedOnceExactlyWhen(held: bool, events: seq<Event>)
    ensures AlwaysOnce(held, events) <==> AlwaysGivesBackInTime(held, events)
  {
    if |events| > 0 {
      var init, e := events[..|events| - 1], events[|events| - 1];
      PostedOnceExactlyWhen(held, init);
      if AlwaysOnce(held, init) {
        LastOnce(held, init);
        hide Once;
        if Enabled(Play(held, init), e) { StepOnceExactlyWhen(Play(held, init), e); }
      }
    }
  }

  // ----- Whole conversions -----

  /** A bill on hold is converted as a whole or not at all. */
  predicate Whole(held: bool, events: seq<Event>) {
    |events| > 0 ==>
      && Whole(held, events[..|events| - 1])
      && (events[|events| - 1].LookClaim? && Play(held, events[..|events| - 1]).status.Held?
          ==> events[|events| - 1].whole)
  }

  /** The request has charged the bill, or has it claimed off its hold. */
  predicate HasIt(q: Request) { q.Charged? || q == Claimed(Held) }

  /** One request at most has the bill, and none while it is on hold; one that claimed it knows it not posted. */
  ghost predicate OneHasIt(w: World) {
    && (w.status.Held? ==> forall r :: 0 <= r < |w.requests| ==> !HasIt(w.requests[r]))
    && (forall r :: 0 <= r < |w.requests| && w.requests[r] == Claimed(Held) ==> w.posts == 0)
    && (forall r :: 0 <= r < |w.requests| && w.requests[r].Claiming? && w.requests[r].seen.Held?
          ==> w.requests[r].whole)
    && (forall r, s :: 0 <= r < s < |w.requests| ==> !(HasIt(w.requests[r]) && HasIt(w.requests[s])))
  }

  lemma CommitOneHasIt(w: World, r: nat)
    requires OneHasIt(w) && (w.status.Held? ==> w.posts == 0) && Enabled(w, Commit(r))
    ensures OneHasIt(Step(w, Commit(r)))
  {
  }

  predicate Looks(e: Event) { e.LookCharge? || e.LookClaim? || e.LookDelete? || e.LookRestore? }

  lemma LookOneHasIt(w: World, e: Event)
    requires OneHasIt(w) && Enabled(w, e) && Looks(e) && (e.LookClaim? && w.status.Held? ==> e.whole)
    ensures OneHasIt(Step(w, e))
  {
  }

  lemma StepOneHasIt(w: World, e: Event)
    requires OneHasIt(w) && (w.status.Held? ==> w.posts == 0) && Enabled(w, e)
             && (e.LookClaim? && w.status.Held? ==> e.whole)
    ensures OneHasIt(Step(w, e))
  {
    if e.Commit? { CommitOneHasIt(w, e.r); } else if Looks(e) { LookOneHasIt(w, e); }
  }

  lemma {:induction false} WholeGivesBackInTime(held: bool, events: seq<Event>)
    requires Whole(held, events)
    ensures Once(Play(held, events)) && OneHasIt(Play(held, events)) && AlwaysGivesBackInTime(held, events)
  {
    if |events| > 0 {
      var init, e := events[..|events| - 1], events[|events| - 1];
      WholeGivesBackInTime(held, init);
      if Enabled(Play(held, init), e) {
        StepOneHasIt(Play(held, init), e);
        StepOnceExactlyWhen(Play(held, init), e);
      }
    }
  }

  /** So it is however they overlap, as long as bills on hold are converted only as a whole. */
  lemma ChargedOnce(held: bool, events: seq<Event>)
    requires Whole(held, events)
    ensures AlwaysOnce(held, events)
  {
    WholeGivesBackInTime(held, events);
    PostedOnceExactlyWhen(held, events);
  }

  // ----- In the books once, exactly while live -----

  /** The document was posted once at most; it is in the books once if it was and is not deleted, and not at
      all otherwise. */
  ghost predicate Straight(w: World) { Once(w) && w.net == if w.deleted then 0 else w.posts }

  /** What a deletion or restoring saw is still so when it commits, no deleted bill is charged, and no hold is
      given back to a charged bill. */
  predicate InTime(w: World, e: Event) {
    && GivesBackInTime(w, e)
    && (e.Commit? && Enabled(w, e) ==> CommitsInTime(w, w.requests[e.r]))
  }

  predicate CommitsInTime(w: World, q: Request) {
    match q
    case Charging => w.status.Held? ==> !w.deleted
    case Deleting(posted) => Effects(posted) == if w.deleted then 0 else w.posts
    case Restoring(posted) => Effects(posted) == if w.deleted then w.posts else 0
    case _ => true
  }

  lemma StepStraightExactlyWhen(w: World, e: Event)
    requires Straight(w) && Enabled(w, e)
    ensures Straight(Step(w, e)) <==> InTime(w, e)
  {
    StepOnceExactlyWhen(w, e);
    hide Once;
  }

  /** After every event of the run, the last one included. */
  ghost predicate AlwaysStraight(held: bool, events: seq<Event>) {
    |events| > 0 ==> AlwaysStraight(held, events[..|events| - 1]) && Straight(Play(held, events))
  }

  /** At every event of the run. */
  predicate AlwaysInTime(held: bool, events: seq<Event>) {
    |events| > 0 ==>
      && AlwaysInTime(held, events[..|events| - 1])
      && InTime(Play(held, events[..|events| - 1]), events[|events| - 1])
  }

  lemma LastStraight(held: bool, events: seq<Event>)
    requires AlwaysStraight(held, events)
    ensures Straight(Play(held, events))
  {
  }

  /** Over every interleaving a document is posted once at most and in the books once while it is live and not at
      all while it is deleted, if and only if no deleted bill is charged, no hold is given back to a charged
      one, and every deletion and restoring commits while what it saw is still so. */
  lemma {:induction false} StraightExactlyWhen(held: bool, events: seq<Event>)
    ensures AlwaysStraight(held, events) <==> AlwaysInTime(held, events)
  {
    if |events| > 0 {
      var init, e := events[..|events| - 1], events[|events| - 1];
      StraightExactlyWhen(held, init);
      if AlwaysStraight(held, init) {
        LastStraight(held, init);
        hide Straight;
        if Enabled(Play(held, init), e) { StepStraightExactlyWhen(Play(held, init), e); }
      }
    }
  }

  // ----- Charged twice, deleted twice -----

  lemma Extend(held: bool, events: seq<Event>, e: Event, w: World) returns (after: seq<Event>)
    requires Play(held, events) == w && Enabled(w, e)
    ensures after == events + [e] && Play(held, after) == Step(w, e)
  {
    after := events + [e];
    assert after[..|events|] == events;
  }

  /** Part of a bill on hold is converted, which leaves the hold; the bill is charged meanwhile; the conversion
      fails and gives the hold back; and the bill is charged again.  Both charges are in the books. */
  lemma ChargedTwice() returns (events: seq<Event>)
    ensures events == [LookClaim(false), Commit(0), LookCharge, Commit(1), Release(0), LookCharge, Commit(2)]
    ensures var w := Play(true, events); w.posts == 2 && w.net == 2 && !w.deleted
  {
    var w := Initial(true);
    events := Extend(true, [], LookClaim(false), w);
    w := w.(requests := [Claiming(Held, false)]);
    events := Extend(true, events, Commit(0), w);
    w := w.(requests := [Claimed(Held)]);
    events := Extend(true, events, LookCharge, w);
    w := w.(requests := [Claimed(Held), Charging]);
    events := Extend(true, events, Commit(1), w);
    w := World(Other(0), false, 1, 1, [Claimed(Held), Charged]);
    events := Extend(true, events, Release(0), w);
    w := World(Held, false, 1, 1, [Over, Charged]);
    events := Extend(true, events, LookCharge, w);
    w := w.(requests := [Over, Charged, Charging]);
    events := Extend(true, events, Commit(2), w);
  }

  /** Two deletions of a posted document that both looked before either committed take its effects back twice. */
  lemma DeletedTwice() returns (events: seq<Event>)
    ensures events == [LookDelete, LookDelete, Commit(0), Commit(1)]
    ensures Play(false, events).net == -1 && Play(false, events).deleted
  {
    var w := Initial(false);
    events := Extend(false, [], LookDelete, w);
    w := w.(requests := [Deleting(true)]);
    events := Extend(false, events, LookDelete, w);
    w := w.(requests := [Deleting(true), Deleting(true)]);
    events := Extend(false, events, Commit(0), w);
    w := World(Other(0), true, 1, 0, [Over, Deleting(true)]);
    events := Extend(false, events, Commit(1), w);
  }
}
