/**
  Sales made offline: rows wait in the browser's queue, any number of tabs push them in batches,
  online checkouts come in beside them, responses get lost and servers give up half way.  One step
  is one thing that happens at one place; the steps of different requests interleave freely.
*/
module OfflineSync {
  import opened Wrappers

  type Key = nat

  datatype Bill = Bill(key: Option<Key>, held: bool, deleted: bool)

  /** What a row or a checkout asks for: a sale (perhaps only put on hold), or something the server
      just records. */
  datatype Op = Sale(key: Option<Key>, hold: bool) | Other(note: nat)

  /** Where a request is with its current operation. */
  datatype Stage = Checking | Locking | Rechecking | Creating | Unlocking | Recording(failed: bool) | Done | Dead

  datatype Request = Request(push: bool, device: Key, ops: seq<Op>, at: nat, stage: Stage)

  datatype Entry = Entry(op: Op, failed: bool)

  /** One reading of the queue and what became of the push made from it. */
  datatype Attempt = Attempt(rows: map<nat, Op>, order: seq<nat>, request: Option<nat>, over: bool)

  datatype World = World(bills: seq<Bill>, locks: map<Key, nat>, requests: seq<Request>, journal: seq<Entry>,
                         enqueued: map<nat, Op>, queue: map<nat, Op>, attempts: seq<Attempt>)

  datatype Event =
    | Enqueue(id: nat, op: Op)
    | Snapshot(order: seq<nat>)
    | Send(attempt: nat, device: Key)
    | Arrive(request: Request)
    | Look(r: nat)
    | Lock(r: nat)
    | Recheck(r: nat)
    | Make(r: nat)
    | Fail(r: nat, permanent: bool)
    | Unlock(r: nat)
    | Record(r: nat)
    | Acknowledge(attempt: nat)
    | GiveUp(attempt: nat)
    | Resume(bill: nat)
    | SetDeleted(bill: nat, deleted: bool)

  // ----- Requests -----

  predicate Running(q: Request) { q.at < |q.ops| && !q.stage.Done? && !q.stage.Dead? }

  function Current(q: Request): Op
    requires Running(q)
  {
    q.ops[q.at]
  }

  /** The key a sale goes by: its own, or for a pushed row without one the device's. */
  function KeyOf(q: Request, op: Op): Option<Key>
    requires op.Sale?
  {
    if op.key.None? && q.push then Some(q.device) else op.key
  }

  function Goes(q: Request, stage: Stage): Request { q.(stage := stage) }

  /** The current operation is over: on to the next one, or done. */
  function Onward(q: Request): Request {
    q.(at := q.at + 1, stage := if q.at + 1 >= |q.ops| then Done else Checking)
  }

  predicate HasBill(bills: seq<Bill>, k: Key) { exists i :: 0 <= i < |bills| && bills[i].key == Some(k) }

  predicate HasFinal(bills: seq<Bill>, k: Key) {
    exists i :: 0 <= i < |bills| && bills[i].key == Some(k) && !bills[i].held
  }

  function Without(locks: map<Key, nat>, r: nat): map<Key, nat> {
    map k | k in locks && locks[k] != r :: locks[k]
  }

  /** A request as it comes in: an online checkout goes straight to its one sale. */
  predicate Incoming(q: Request) {
    q.at == 0 && |q.ops| > 0
    && (if q.push then q.stage.Checking? else |q.ops| == 1 && q.ops[0].Sale? && q.stage.Locking?)
  }

  predicate At(w: World, r: nat, stage: Stage) {
    r < |w.requests| && Running(w.requests[r]) && w.requests[r].stage == stage
  }

  predicate SaleAt(w: World, r: nat, stage: Stage) { At(w, r, stage) && Current(w.requests[r]).Sale? }

  function CurrentKey(w: World, r: nat): Option<Key>
    requires r < |w.requests| && Running(w.requests[r]) && Current(w.requests[r]).Sale?
  {
    KeyOf(w.requests[r], Current(w.requests[r]))
  }

  predicate Lists(order: seq<nat>, rows: map<nat, Op>) {
    (forall id :: id in rows ==> id in order) && (forall id :: id in order ==> id in rows)
  }

  function OpsOf(rows: map<nat, Op>, order: seq<nat>): seq<Op>
    requires forall id :: id in order ==> id in rows
  {
    seq(|order|, k requires 0 <= k < |order| => rows[order[k]])
  }

  // ----- Steps -----

  predicate Enabled(w: World, e: Event) {
    match e
    case Enqueue(id, op) => id !in w.enqueued
    case Snapshot(order) => |order| > 0 && Lists(order, w.queue)
    case Send(a, device) => a < |w.attempts| && !w.attempts[a].over
    case Arrive(q) => Incoming(q)
    case Look(r) => At(w, r, Checking)
    case Lock(r) => SaleAt(w, r, Locking) && (CurrentKey(w, r).Some? ==> CurrentKey(w, r).value !in w.locks)
    case Recheck(r) => SaleAt(w, r, Rechecking)
    case Make(r) => SaleAt(w, r, Creating)
    case Fail(r, permanent) => r < |w.requests| && Running(w.requests[r])
    case Unlock(r) => SaleAt(w, r, Unlocking)
    case Record(r) => At(w, r, Recording(false)) || At(w, r, Recording(true))
    case Acknowledge(a) => a < |w.attempts| && !w.attempts[a].over && Answered(w, w.attempts[a])
    case GiveUp(a) => a < |w.attempts| && !w.attempts[a].over
    case Resume(b) => b < |w.bills| && w.bills[b].held
    case SetDeleted(b, deleted) => b < |w.bills|
  }

  /** The push made from this reading of the queue has gone through, and the answer has come. */
  predicate Answered(w: World, a: Attempt) {
    a.request.Some? && a.request.value < |w.requests| && w.requests[a.request.value].stage.Done?
  }

  /** A permanent error is written down and the batch goes on; but not one met while doing that,
      nor one with an operation other than a sale. */
  predicate Records(q: Request)
    requires Running(q)
  {
    q.push && Current(q).Sale? && q.stage != Recording(true)
  }

  function Step(w: World, e: Event): (w': World)
    requires Enabled(w, e) && AttemptsListed(w)
    ensures AttemptsListed(w')
  {
    match e
    case Enqueue(id, op) => w.(enqueued := w.enqueued[id := op], queue := w.queue[id := op])
    case Snapshot(order) => w.(attempts := w.attempts + [Attempt(w.queue, order, None, false)])
    case Send(a, device) =>
      var q := Request(true, device, OpsOf(w.attempts[a].rows, w.attempts[a].order), 0, Checking);
      w.(requests := w.requests + [q], attempts := w.attempts[a := w.attempts[a].(request := Some(|w.requests|))])
    case Arrive(q) => w.(requests := w.requests + [q])
    case Look(r) =>
      var q := w.requests[r];
      if Current(q).Other? then
        w.(journal := w.journal + [Entry(Current(q), false)], requests := w.requests[r := Onward(q)])
      else
        var known := CurrentKey(w, r).Some? && HasBill(w.bills, CurrentKey(w, r).value);
        w.(requests := w.requests[r := Goes(q, if known then Recording(false) else Locking)])
    case Lock(r) =>
      var q := w.requests[r];
      if CurrentKey(w, r).Some? then
        w.(locks := w.locks[CurrentKey(w, r).value := r], requests := w.requests[r := Goes(q, Rechecking)])
      else
        w.(requests := w.requests[r := Goes(q, Creating)])
    case Recheck(r) =>
      var known := CurrentKey(w, r).Some? && HasFinal(w.bills, CurrentKey(w, r).value);
      w.(requests := w.requests[r := Goes(w.requests[r], if known then Unlocking else Creating)])
    case Make(r) =>
      var q := w.requests[r];
      w.(bills := w.bills + [Bill(CurrentKey(w, r), Current(q).hold, false)],
         requests := w.requests[r := Goes(q, Unlocking)])
    case Fail(r, permanent) =>
      w.(locks := Without(w.locks, r),
         requests := w.requests[r := Goes(w.requests[r],
                                          if permanent && Records(w.requests[r]) then Recording(true) else Dead)])
    case Unlock(r) =>
      w.(locks := Without(w.locks, r),
         requests := w.requests[r := if w.requests[r].push then Goes(w.requests[r], Recording(false))
                                     else Onward(w.requests[r])])
    case Record(r) =>
      var q := w.requests[r];
      w.(journal := w.journal + [Entry(Current(q), q.stage.failed)], requests := w.requests[r := Onward(q)])
    case Acknowledge(a) =>
      w.(queue := map id | id in w.queue && id !in w.attempts[a].rows :: w.queue[id],
         attempts := w.attempts[a := w.attempts[a].(over := true)])
    case GiveUp(a) =>
      w.(queue := w.queue + w.attempts[a].rows, attempts := w.attempts[a := w.attempts[a].(over := true)])
    case Resume(b) => w.(bills := w.bills[b := w.bills[b].(held := false)])
    case SetDeleted(b, deleted) => w.(bills := w.bills[b := w.bills[b].(deleted := deleted)])
  }

  predicate AttemptsListed(w: World) {
    forall a :: 0 <= a < |w.attempts| ==> AttemptListed(w.attempts[a])
  }

  predicate AttemptListed(a: Attempt) { |a.order| > 0 && Lists(a.order, a.rows) }

  const EMPTY := World([], map[], [], [], map[], map[], [])

  /** The world after these events, if each was possible when it happened. */
  function Play(events: seq<Event>): (w: Option<World>)
    ensures w.Some? ==> AttemptsListed(w.value)
  {
    if |events| == 0 then Some(EMPTY)
    else
      var before := Play(events[..|events| - 1]);
      if before.Some? && Enabled(before.value, events[|events| - 1])
      then Some(Step(before.value, events[|events| - 1])) else None
  }

  // ----- A row leaves the queue only once it is settled -----

  /** The operation has been dealt with: recorded, and for a sale either its bill is there or it
      is recorded as having failed for good. */
  ghost predicate OpSettled(w: World, op: Op, device: Key) {
    match op
    case Sale(key, hold) => HasBill(w.bills, if key.Some? then key.value else device) || Entry(op, true) in w.journal
    case Other(note) => Entry(op, false) in w.journal
  }

  ghost predicate SettledBy(w: World, q: Request, op: Op) { q.push && op in q.ops && OpSettled(w, op, q.device) }

  /** A push that had the operation among its own has settled it. */
  ghost predicate SomewhereSettled(w: World, op: Op) {
    exists r :: 0 <= r < |w.requests| && SettledBy(w, w.requests[r], op)
  }

  /** A push has settled every operation it is past, and is about to record only what it has. */
  ghost predicate PushHonest(w: World, q: Request) {
    && q.at <= |q.ops|
    && (q.stage.Done? ==> q.at == |q.ops|)
    && (Running(q) && !q.stage.Checking? ==> Current(q).Sale?)
    && (q.push ==>
          && (forall j :: 0 <= j < q.at ==> OpSettled(w, q.ops[j], q.device))
          && (Running(q) && (q.stage == Recording(false) || q.stage == Unlocking) && Current(q).Sale? ==>
                KeyOf(q, Current(q)).Some? && HasBill(w.bills, KeyOf(q, Current(q)).value)))
  }

  ghost predicate AttemptHonest(w: World, a: Attempt) {
    && AttemptListed(a)
    && (forall id :: id in a.rows ==> id in w.enqueued && w.enqueued[id] == a.rows[id])
    && (a.request.Some? ==>
          && a.request.value < |w.requests|
          && w.requests[a.request.value].push
          && w.requests[a.request.value].ops == OpsOf(a.rows, a.order))
  }

  ghost predicate RowSafe(w: World, id: nat)
    requires id in w.enqueued
  {
    if id in w.queue then w.queue[id] == w.enqueued[id] else SomewhereSettled(w, w.enqueued[id])
  }

  ghost predicate Honest(w: World) {
    && (forall r :: 0 <= r < |w.requests| ==> PushHonest(w, w.requests[r]))
    && (forall a :: 0 <= a < |w.attempts| ==> AttemptHonest(w, w.attempts[a]))
    && (forall id :: id in w.queue ==> id in w.enqueued)
    && (forall id :: id in w.enqueued ==> RowSafe(w, id))
  }

  predicate SameSender(q: Request, q': Request) { q'.push == q.push && q'.ops == q.ops && q'.device == q.device }

  /** Bills are never removed or given another key, requests go on with what they came with, and the
      journal only grows. */
  ghost predicate Grows(w: World, w': World) {
    && (forall k: Key :: HasBill(w.bills, k) ==> HasBill(w'.bills, k)) && w.journal <= w'.journal
    && |w.requests| <= |w'.requests|
    && (forall r :: 0 <= r < |w.requests| ==> SameSender(w.requests[r], w'.requests[r]))
  }

  lemma StepGrows(w: World, e: Event)
    requires Enabled(w, e) && AttemptsListed(w)
    ensures Grows(w, Step(w, e))
  {
    var w' := Step(w, e);
    forall k: Key | HasBill(w.bills, k) ensures HasBill(w'.bills, k) {
      var i :| 0 <= i < |w.bills| && w.bills[i].key == Some(k);
      assert w'.bills[i].key == Some(k);
    }
  }

  lemma SettledStays(w: World, w': World, op: Op, device: Key)
    requires Grows(w, w') && OpSettled(w, op, device)
    ensures OpSettled(w', op, device)
  {
  }

  lemma SomewhereStays(w: World, w': World, op: Op)
    requires Grows(w, w') && SomewhereSettled(w, op)
    ensures SomewhereSettled(w', op)
  {
    var r :| 0 <= r < |w.requests| && SettledBy(w, w.requests[r], op);
    SettledStays(w, w', op, w.requests[r].device);
    assert SameSender(w.requests[r], w'.requests[r]) && SettledBy(w', w'.requests[r], op);
  }

  lemma PushStaysHonest(w: World, w': World, q: Request)
    requires Grows(w, w') && PushHonest(w, q)
    ensures PushHonest(w', q)
  {
    if q.push {
      forall j | 0 <= j < q.at ensures OpSettled(w', q.ops[j], q.device) { SettledStays(w, w', q.ops[j], q.device); }
    }
  }

  lemma RowStaysSafe(w: World, w': World, id: nat)
    requires Grows(w, w') && id in w.enqueued && id in w'.enqueued && w'.enqueued[id] == w.enqueued[id]
    requires RowSafe(w, id) && (id in w.queue ==> id in w'.queue && w'.queue[id] == w.queue[id])
    requires id in w'.queue ==> w'.queue[id] == w.enqueued[id]
    ensures RowSafe(w', id)
  {
    if id !in w.queue && id !in w'.queue {
      SomewhereStays(w, w', w.enqueued[id]);
    }
  }

  /** A step that lets one request go on. */
  lemma RequestGoesOn(w: World, w': World, r: nat)
    requires Honest(w) && Grows(w, w') && r < |w.requests|
    requires |w'.requests| == |w.requests|
    requires w' == w.(bills := w'.bills, locks := w'.locks, journal := w'.journal,
                      requests := w.requests[r := w'.requests[r]])
    requires PushHonest(w', w'.requests[r])
    requires w'.requests[r].push == w.requests[r].push && w'.requests[r].ops == w.requests[r].ops
    ensures Honest(w')
  {
    forall x | 0 <= x < |w'.requests|
      ensures PushHonest(w', w'.requests[x])
    {
      if x != r { PushStaysHonest(w, w', w.requests[x]); }
    }
    forall a | 0 <= a < |w'.attempts|
      ensures AttemptHonest(w', w'.attempts[a])
    {
      assert AttemptHonest(w, w.attempts[a]);
    }
    forall id | id in w'.enqueued ensures RowSafe(w', id) { RowStaysSafe(w, w', id); }
  }

  predicate ServerStep(e: Event) { e.Look? || e.Lock? || e.Recheck? || e.Make? || e.Fail? || e.Unlock? || e.Record? }

  /** The request that goes on stays honest itself. */
  lemma GoingStaysHonest(w: World, e: Event)
    requires Enabled(w, e) && AttemptsListed(w) && ServerStep(e) && PushHonest(w, w.requests[e.r])
    ensures PushHonest(Step(w, e), Step(w, e).requests[e.r])
  {
    hide Grows;
    var w', q, r := Step(w, e), w.requests[e.r], e.r;
    StepGrows(w, e);
    PushStaysHonest(w, w', q);
    match e {
      case Look(_) => if Current(q).Other? { assert w'.journal[|w.journal|] == Entry(Current(q), false); }
      case Record(_) => assert w'.journal[|w.journal|] == Entry(Current(q), q.stage.failed);
      case Recheck(_) => if HasFinalKey(w, r) { assert HasBill(w.bills, CurrentKey(w, r).value); }
      case Make(_) => assert w'.bills[|w.bills|].key == CurrentKey(w, r);
      case _ =>
    }
  }

  lemma ServerStepHonest(w: World, e: Event)
    requires Honest(w) && AttemptsListed(w) && Enabled(w, e) && ServerStep(e)
    ensures Honest(Step(w, e))
  {
    hide Honest, Grows, PushHonest;
    StepGrows(w, e);
    assert PushHonest(w, w.requests[e.r]) by { HonestPush(w, e.r); }
    GoingStaysHonest(w, e);
    RequestGoesOn(w, Step(w, e), e.r);
  }

  lemma HonestPush(w: World, r: nat)
    requires Honest(w) && r < |w.requests|
    ensures PushHonest(w, w.requests[r])
  {
  }

  predicate HasFinalKey(w: World, r: nat)
    requires r < |w.requests| && Running(w.requests[r]) && Current(w.requests[r]).Sale?
  {
    CurrentKey(w, r).Some? && HasFinal(w.bills, CurrentKey(w, r).value)
  }

  lemma BillStepHonest(w: World, e: Event)
    requires Honest(w) && AttemptsListed(w) && Enabled(w, e) && (e.Resume? || e.SetDeleted?)
    ensures Honest(Step(w, e))
  {
    var w' := Step(w, e);
    StepGrows(w, e);
    forall x | 0 <= x < |w'.requests| ensures PushHonest(w', w'.requests[x]) { PushStaysHonest(w, w', w.requests[x]); }
    forall a | 0 <= a < |w'.attempts|
      ensures AttemptHonest(w', w'.attempts[a])
    {
      assert AttemptHonest(w, w.attempts[a]);
    }
    forall id | id in w'.enqueued ensures RowSafe(w', id) { RowStaysSafe(w, w', id); }
  }

  lemma ClientStepHonest(w: World, e: Event)
    requires Honest(w) && AttemptsListed(w) && Enabled(w, e)
    requires e.Enqueue? || e.Snapshot? || e.Send? || e.Arrive? || e.GiveUp?
    ensures Honest(Step(w, e))
  {
    var w' := Step(w, e);
    StepGrows(w, e);
    forall x | 0 <= x < |w'.requests|
      ensures PushHonest(w', w'.requests[x])
    {
      if x < |w.requests| { PushStaysHonest(w, w', w.requests[x]); }
    }
    forall a | 0 <= a < |w'.attempts|
      ensures AttemptHonest(w', w'.attempts[a])
    {
      if a < |w.attempts| { assert AttemptHonest(w, w.attempts[a]); }
    }
    if e.GiveUp? { assert AttemptHonest(w, w.attempts[e.attempt]); }
    forall id | id in w'.enqueued ensures RowSafe(w', id) {
      if id in w.enqueued { assert RowSafe(w, id); RowStaysSafe(w, w', id); }
    }
  }

  /** When the answer comes, every row that was pushed is settled. */
  lemma AcknowledgeHonest(w: World, a: nat)
    requires Honest(w) && AttemptsListed(w) && Enabled(w, Acknowledge(a))
    ensures Honest(Step(w, Acknowledge(a)))
  {
    var w', attempt := Step(w, Acknowledge(a)), w.attempts[a];
    StepGrows(w, Acknowledge(a));
    assert AttemptHonest(w, attempt);
    var q := w.requests[attempt.request.value];
    forall x | 0 <= x < |w'.requests| ensures PushHonest(w', w'.requests[x]) { PushStaysHonest(w, w', w.requests[x]); }
    forall x | 0 <= x < |w'.attempts|
      ensures AttemptHonest(w', w'.attempts[x])
    {
      assert AttemptHonest(w, w.attempts[x]);
    }
    forall id | id in w'.enqueued ensures RowSafe(w', id) {
      assert RowSafe(w, id);
      if id in w.queue && id in attempt.rows {
        var k :| 0 <= k < |attempt.order| && attempt.order[k] == id;
        assert PushHonest(w, q) && OpSettled(w, q.ops[k], q.device);
        assert SettledBy(w, q, q.ops[k]);
        SomewhereStays(w, w', q.ops[k]);
      } else {
        RowStaysSafeOrLeft(w, w', id);
      }
    }
  }

  lemma RowStaysSafeOrLeft(w: World, w': World, id: nat)
    requires Grows(w, w') && id in w.enqueued && w'.enqueued == w.enqueued
    requires RowSafe(w, id) && ((id in w.queue) == (id in w'.queue)) && (id in w.queue ==> w'.queue[id] == w.queue[id])
    ensures RowSafe(w', id)
  {
    if id !in w.queue {
      SomewhereStays(w, w', w.enqueued[id]);
    }
  }

  lemma StepHonest(w: World, e: Event)
    requires Honest(w) && AttemptsListed(w) && Enabled(w, e)
    ensures Honest(Step(w, e))
  {
    match e
    case Acknowledge(a) => AcknowledgeHonest(w, a);
    case Resume(_) => BillStepHonest(w, e);
    case SetDeleted(_, _) => BillStepHonest(w, e);
    case Enqueue(_, _) => ClientStepHonest(w, e);
    case Snapshot(_) => ClientStepHonest(w, e);
    case Send(_, _) => ClientStepHonest(w, e);
    case Arrive(_) => ClientStepHonest(w, e);
    case GiveUp(_) => ClientStepHonest(w, e);
    case _ => ServerStepHonest(w, e);
  }

  /** Whatever tabs, retries, lost answers and failures there are: every row ever queued is still
      queued, unchanged, or the server has made its invoice or recorded that it never can. */
  lemma {:induction false} NoRowIsLost(events: seq<Event>)
    requires Play(events).Some?
    ensures Honest(Play(events).value)
  {
    if |events| > 0 {
      NoRowIsLost(events[..|events| - 1]);
      StepHonest(Play(events[..|events| - 1]).value, events[|events| - 1]);
    }
  }
}
