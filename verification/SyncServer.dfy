/**
  The server's side of one push, running alone: operation by operation, with whatever goes wrong.

  `Materialise` finds or makes the invoice of one operation, `PushOperations` works through a batch.  What
  goes wrong is a parameter, operation by operation: making the invoice, writing down that it went
  through, writing down that it failed.  An error is permanent or transient as the server's own list of
  status and database codes says.
*/
module SyncServer {
  import opened Wrappers
  import opened OfflineSync
  import opened ExactlyOnce

  /** What creating an invoice can fail with. */
  datatype Error = Http(status: int) | Database(code: string) | Validation | Unknown

  /** An error that would come back on every retry. */
  predicate IsPermanent(e: Error) {
    match e
    case Http(status) => 400 <= status < 500
    case Database(code) => code in {"P2002", "P2003", "P2025"}
    case Validation => true
    case Unknown => false
  }

  function OpKey(op: Op, device: Key): Key
    requires op.Sale?
  {
    if op.key.Some? then op.key.value else device
  }

  function SalesIn(ops: seq<Op>): nat {
    if |ops| == 0 then 0 else SalesIn(ops[..|ops| - 1]) + (if ops[|ops| - 1].Sale? then 1 else 0)
  }

  /** Every sale among the operations has a bill already. */
  ghost predicate AllKnown(bills: seq<Bill>, ops: seq<Op>, device: Key) {
    forall j :: 0 <= j < |ops| && ops[j].Sale? ==> HasBill(bills, OpKey(ops[j], device))
  }

  /** What goes wrong with one operation, if anything: making its invoice, writing down that it went
      through, and writing down that it failed. */
  datatype Trouble = Trouble(making: Option<Error>, logging: Option<Error>, loggingFailure: bool)

  predicate Transient(e: Option<Error>) { e.Some? && !IsPermanent(e.value) }

  /** Trouble that can stop a batch: anything transient, or not even getting the outcome written down. */
  predicate CanStop(op: Op, t: Trouble) {
    if op.Sale? then
      Transient(t.making) || Transient(t.logging) || ((t.making.Some? || t.logging.Some?) && t.loggingFailure)
    else
      t.logging.Some?
  }

  /** Sales that went through but could be written down only as failed: they are counted both ways. */
  predicate AllLogged(trouble: seq<Trouble>) { forall j :: 0 <= j < |trouble| ==> trouble[j].logging.None? }

  lemma OneMoreBill(bills: seq<Bill>, b: Bill)
    requires b.key.Some? && !HasBill(bills, b.key.value)
    ensures forall k: Key :: OneBill(bills, k) ==> OneBill(bills + [b], k)
    ensures HasBill(bills + [b], b.key.value)
  {
    assert (bills + [b])[|bills|] == b;
    forall k: Key | OneBill(bills, k) ensures OneBill(bills + [b], k) {
      if b.key == Some(k) { assert forall i :: 0 <= i < |bills| ==> bills[i].key != Some(k); }
    }
  }

  lemma BillsKept(bills: seq<Bill>, more: seq<Bill>, k: Key)
    requires bills <= more && HasBill(bills, k)
    ensures HasBill(more, k)
  {
    var i :| 0 <= i < |bills| && bills[i].key == Some(k);
    assert more[i].key == Some(k);
  }

  class Server {
    var bills: seq<Bill>
    var journal: seq<Entry>

    ghost function Now(): World
      reads this
    {
      World(bills, map[], [], journal, map[], map[], [])
    }

    /** The bill a push goes through: known under its key whatever its state, or made now. */
    method Materialise(op: Op, device: Key, error: Option<Error>) returns (failure: Option<Error>)
      requires op.Sale?
      modifies `bills
      ensures old(bills) <= bills && |bills| <= |old(bills)| + 1
      ensures failure.None? ==> HasBill(bills, OpKey(op, device))
      ensures failure.Some? ==> failure == error && bills == old(bills)
      ensures HasBill(old(bills), OpKey(op, device)) ==> failure.None? && bills == old(bills)
      ensures forall k: Key :: OneBill(old(bills), k) ==> OneBill(bills, k)
    {
      var key := OpKey(op, device);
      if HasBill(bills, key) { return None; }
      if error.Some? { return error; }
      OneMoreBill(bills, Bill(Some(key), op.hold, false));
      bills := bills + [Bill(Some(key), op.hold, false)];
      return None;
    }

    /**
      Works through a batch.  It completes unless something transient, or an outcome that cannot be
      written down, stops it; once completed every operation is settled.  No key gets a second bill,
      and a batch whose sales all have their bills already, such as one pushed again, makes none.
      A sale is counted once, unless it went through and could only be written down as failed.
    */
    method PushOperations(device: Key, ops: seq<Op>, trouble: seq<Trouble>)
      returns (completed: bool, synced: nat, skipped: nat)
      requires |trouble| == |ops|
      modifies this
      ensures old(bills) <= bills && old(journal) <= journal
      ensures !completed ==> exists j :: 0 <= j < |ops| && CanStop(ops[j], trouble[j])
      ensures completed ==> |journal| == |old(journal)| + |ops| && synced <= SalesIn(ops) <= synced + skipped
      ensures completed && AllLogged(trouble) ==> synced + skipped == SalesIn(ops)
      ensures completed ==> forall j :: 0 <= j < |ops| ==> OpSettled(Now(), ops[j], device)
      ensures AllKnown(old(bills), ops, device) ==> bills == old(bills)
      ensures AllKnown(old(bills), ops, device) && AllLogged(trouble) ==> completed && skipped == 0
      ensures forall k: Key :: OneBill(old(bills), k) ==> OneBill(bills, k)
    {
      synced, skipped := 0, 0;
      var n := 0;
      while n < |ops|
        invariant 0 <= n <= |ops| && old(bills) <= bills && old(journal) <= journal
        invariant |journal| == |old(journal)| + n && synced <= SalesIn(ops[..n]) <= synced + skipped
        invariant AllLogged(trouble) ==> synced + skipped == SalesIn(ops[..n])
        invariant forall j :: 0 <= j < n ==> OpSettled(Now(), ops[j], device)
        invariant AllKnown(old(bills), ops, device) ==> bills == old(bills) && (AllLogged(trouble) ==> skipped == 0)
        invariant forall k: Key :: OneBill(old(bills), k) ==> OneBill(bills, k)
      {
        ghost var before := Now();
        assert ops[..n + 1][..n] == ops[..n];
        var op, t := ops[n], trouble[n];
        var failure := None;
        if op.Sale? {
          failure := Materialise(op, device, t.making);
          if failure.None? {
            synced := synced + 1;
            failure := t.logging;
          }
          if failure.Some? {
            if !IsPermanent(failure.value) || t.loggingFailure { return false, synced, skipped; }
            skipped := skipped + 1;
          }
        } else if t.logging.Some? {
          return false, synced, skipped;
        }
        journal := journal + [Entry(op, failure.Some?)];
        assert journal[|journal| - 1] == Entry(op, failure.Some?);
        StillSettled(before, Now(), ops[..n], device);
        forall j | 0 <= j < n ensures OpSettled(Now(), ops[j], device) { assert ops[..n][j] == ops[j]; }
        n := n + 1;
      }
      assert ops[..n] == ops;
      completed := true;
    }
  }

  lemma StillSettled(w: World, w': World, ops: seq<Op>, device: Key)
    requires w.bills <= w'.bills && w.journal <= w'.journal && w.requests == w'.requests
    requires forall j :: 0 <= j < |ops| ==> OpSettled(w, ops[j], device)
    ensures forall j :: 0 <= j < |ops| ==> OpSettled(w', ops[j], device)
  {
    forall k: Key | HasBill(w.bills, k) ensures HasBill(w'.bills, k) { BillsKept(w.bills, w'.bills, k); }
    forall j | 0 <= j < |ops| ensures OpSettled(w', ops[j], device) { SettledStays(w, w', ops[j], device); }
  }
}
