/**
  Document numbers: one counter per shop and kind of document, which heals itself when it has
  fallen behind numbers already in use.
*/
module Numbering {
  import opened Wrappers
  import opened Digits
  import Books

  type Kind = Books.Kind

  /** A document's number, unique within its branch (or none) and kind. */
  datatype Numbered = Numbered(branch: Option<nat>, kind: Kind, number: string)

  datatype Sequence = Sequence(prefix: string, next: int)

  type Counters = map<(nat, Kind), Sequence>

  const ATTEMPTS := 5000

  function DefaultPrefix(k: Kind): string {
    match k
    case SaleInvoice => "INV"
    case CreditNote => "CN"
    case SaleOrder => "SO"
    case DeliveryChallan => "DC"
    case Estimate => "EST"
    case PaymentIn => "PI"
    case PurchaseBill => "PB"
    case DebitNote => "DN"
    case PurchaseOrder => "PO"
    case PaymentOut => "PMO"
    case Expense => "EXP"
    case P2PTransfer => "P2P"
  }

  function Printed(prefix: string, n: int): string { prefix + "-" + Pad(Text(n), 3) }

  /** Different numbers print differently. */
  lemma {:induction false} PrintedApart(prefix: string, m: int, n: int)
    ensures Printed(prefix, m) == Printed(prefix, n) ==> m == n
  {
    if Printed(prefix, m) == Printed(prefix, n) {
      var head := prefix + "-";
      assert Pad(Text(m), 3) == Printed(prefix, m)[|head|..];
      assert Pad(Text(n), 3) == Printed(prefix, n)[|head|..];
      ReadPadded(m, 3);
      ReadPadded(n, 3);
    }
  }

  predicate Taken(docs: seq<Numbered>, branch: Option<nat>, kind: Kind, number: string) {
    Numbered(branch, kind, number) in docs
  }

  predicate Unique(docs: seq<Numbered>) {
    forall j, k :: 0 <= j < k < |docs| ==> docs[j] != docs[k]
  }

  function ShopFor(branch: Option<nat>, default: Option<nat>): Option<nat> {
    if branch.Some? then branch else default
  }

  /** The prefix in force, the first number tried and the counter after that one claim. */
  function PrefixFor(counters: Counters, shop: nat, kind: Kind): string {
    if (shop, kind) in counters && counters[(shop, kind)].prefix != "" then counters[(shop, kind)].prefix
    else DefaultPrefix(kind)
  }

  function Start(counters: Counters, shop: nat, kind: Kind): int {
    if (shop, kind) in counters && counters[(shop, kind)].next != 0 then counters[(shop, kind)].next else 1
  }

  function Stored(counters: Counters, shop: nat, kind: Kind): string {
    if (shop, kind) in counters then counters[(shop, kind)].prefix else DefaultPrefix(kind)
  }

  /** n is the least unused number from the counter's start, within the allowed attempts. */
  ghost predicate Claims(counters: Counters, docs: seq<Numbered>, shop: nat, branch: Option<nat>, kind: Kind, n: int) {
    var prefix := PrefixFor(counters, shop, kind);
    && Start(counters, shop, kind) <= n < Start(counters, shop, kind) + ATTEMPTS
    && !Taken(docs, branch, kind, Printed(prefix, n))
    && (forall m :: Start(counters, shop, kind) <= m < n ==> Taken(docs, branch, kind, Printed(prefix, m)))
  }

  ghost predicate Exhausted(counters: Counters, docs: seq<Numbered>, shop: nat, branch: Option<nat>, kind: Kind) {
    var prefix := PrefixFor(counters, shop, kind);
    forall m :: Start(counters, shop, kind) <= m < Start(counters, shop, kind) + ATTEMPTS
        ==> Taken(docs, branch, kind, Printed(prefix, m))
  }

  /** How many documents of this kind and branch there are, deleted ones included. */
  function Count(docs: seq<Numbered>, branch: Option<nat>, kind: Kind): nat {
    if |docs| == 0 then 0
    else Count(docs[..|docs| - 1], branch, kind)
         + (if docs[|docs| - 1].branch == branch && docs[|docs| - 1].kind == kind then 1 else 0)
  }

  /** The numbers in use for this kind and branch. */
  ghost function InUse(docs: seq<Numbered>, branch: Option<nat>, kind: Kind): (used: set<string>)
    ensures |used| <= Count(docs, branch, kind)
    ensures forall d :: d in docs && d.branch == branch && d.kind == kind ==> d.number in used
  {
    if |docs| == 0 then {}
    else
      var n := |docs| - 1;
      assert docs == docs[..n] + [docs[n]];
      InUse(docs[..n], branch, kind)
      + (if docs[n].branch == branch && docs[n].kind == kind then {docs[n].number} else {})
  }

  /** k consecutive numbers cannot all be printed in a set of fewer than k strings. */
  lemma {:induction false} Pigeonhole(used: set<string>, prefix: string, start: int, k: nat)
    requires forall m :: start <= m < start + k ==> Printed(prefix, m) in used
    ensures |used| >= k
    decreases k
  {
    if k > 0 {
      var last := Printed(prefix, start + k - 1);
      forall m | start <= m < start + k - 1
        ensures Printed(prefix, m) in used - {last}
      {
        PrintedApart(prefix, m, start + k - 1);
      }
      Pigeonhole(used - {last}, prefix, start, k - 1);
    }
  }

  /** Numbering runs dry only when the branch already has as many documents of the kind as there
      are attempts. */
  lemma ExhaustedMeansMany(counters: Counters, docs: seq<Numbered>, shop: nat, branch: Option<nat>, kind: Kind)
    requires Exhausted(counters, docs, shop, branch, kind)
    ensures Count(docs, branch, kind) >= ATTEMPTS
  {
    var prefix, start := PrefixFor(counters, shop, kind), Start(counters, shop, kind);
    forall m | start <= m < start + ATTEMPTS ensures Printed(prefix, m) in InUse(docs, branch, kind) {
      assert Taken(docs, branch, kind, Printed(prefix, m));
    }
    Pigeonhole(InUse(docs, branch, kind), prefix, start, ATTEMPTS);
  }

  class Register {
    var counters: Counters
    var docs: seq<Numbered>

    ghost predicate Valid()
      reads this
    {
      Unique(docs)
    }

    constructor ()
      ensures Valid() && counters == map[] && docs == []
    {
      counters, docs := map[], [];
    }

    /** The first unused number from the counter's start; none when all attempts are taken. */
    method NextNumber(kind: Kind, branch: Option<nat>, shop: nat) returns (found: Option<int>)
      modifies this`counters
      ensures found.Some? ==>
                && Claims(old(counters), docs, shop, branch, kind, found.value)
                && counters == old(counters)[(shop, kind) := Sequence(Stored(old(counters), shop, kind),
                                                                      found.value + 1)]
      ensures found.None? ==> counters == old(counters) && Exhausted(counters, docs, shop, branch, kind)
    {
      hide Printed, DefaultPrefix;
      var key := (shop, kind);
      var bumped := if key in counters then counters[key].(next := counters[key].next + 1)
                    else Sequence(DefaultPrefix(kind), 2);
      var prefix := if bumped.prefix != "" then bumped.prefix else DefaultPrefix(kind);
      var start := if bumped.next - 1 != 0 then bumped.next - 1 else 1;
      assert start == Start(counters, shop, kind) && prefix == PrefixFor(counters, shop, kind);
      var n := start;
      while n < start + ATTEMPTS
        invariant start <= n <= start + ATTEMPTS
        invariant counters == old(counters)
        invariant forall m :: start <= m < n ==> Taken(docs, branch, kind, Printed(prefix, m))
      {
        if !Taken(docs, branch, kind, Printed(prefix, n)) {
          counters := counters[key := if n + 1 > bumped.next then bumped.(next := n + 1) else bumped];
          return Some(n);
        }
        n := n + 1;
      }
      found := None;
    }

    /**
      Claims a number for a new document and writes the document.  Without a shop, or with no
      number free within the allowed attempts, everything is as before.
    */
    method Issue(kind: Kind, branch: Option<nat>, default: Option<nat>) returns (issued: Option<int>)
      requires Valid()
      modifies this
      ensures Valid()
      ensures issued.Some? ==> Steps(State(old(counters), old(docs)), Claimed(kind, branch, default, issued.value),
                                     State(counters, docs))
      ensures issued.None? ==> counters == old(counters) && docs == old(docs)
      ensures issued.None? && ShopFor(branch, default).Some? ==> Count(docs, branch, kind) >= ATTEMPTS
    {
      var shop := ShopFor(branch, default);
      if shop.None? { return None; }
      var prefix := PrefixFor(counters, shop.value, kind);
      issued := NextNumber(kind, branch, shop.value);
      if issued.Some? {
        docs := docs + [Numbered(branch, kind, Printed(prefix, issued.value))];
      } else {
        ExhaustedMeansMany(counters, docs, shop.value, branch, kind);
      }
    }

    /** The owner sets a shop's prefix and, if given, its next number. */
    method Configure(shop: nat, kind: Kind, prefix: string, next: Option<int>)
      requires Valid()
      modifies this
      ensures Valid() && docs == old(docs)
      ensures Steps(State(old(counters), old(docs)), Configured(shop, kind, prefix, next), State(counters, docs))
    {
      var kept := if (shop, kind) in counters then counters[(shop, kind)].next else 1;
      counters := counters[(shop, kind) := Sequence(prefix, if next.Some? then next.value else kept)];
    }
  }

  // ----- Runs -----

  /** One claim or one change of settings, with the number a claim came away with. */
  datatype Event =
    | Claimed(kind: Kind, branch: Option<nat>, default: Option<nat>, n: int)
    | Refused(kind: Kind, branch: Option<nat>, default: Option<nat>)
    | Configured(shop: nat, kind: Kind, prefix: string, next: Option<int>)

  datatype State = State(counters: Counters, docs: seq<Numbered>)

  ghost predicate Steps(s: State, e: Event, s': State) {
    match e
    case Claimed(kind, branch, default, n) =>
      && ShopFor(branch, default).Some?
      && var shop := ShopFor(branch, default).value;
         && Claims(s.counters, s.docs, shop, branch, kind, n)
         && s'.docs == s.docs + [Numbered(branch, kind, Printed(PrefixFor(s.counters, shop, kind), n))]
         && s'.counters == s.counters[(shop, kind) := Sequence(Stored(s.counters, shop, kind), n + 1)]
    case Refused(kind, branch, default) => s' == s
    case Configured(shop, kind, prefix, next) =>
      && s'.docs == s.docs
      && s'.counters == s.counters[(shop, kind) := Sequence(prefix,
           if next.Some? then next.value else if (shop, kind) in s.counters then s.counters[(shop, kind)].next else 1)]
  }

  ghost predicate IsRun(states: seq<State>, events: seq<Event>) {
    |states| == |events| + 1 && forall k :: 0 <= k < |events| ==> Steps(states[k], events[k], states[k + 1])
  }

  predicate ClaimsAt(e: Event, shop: nat, kind: Kind) {
    e.Claimed? && e.kind == kind && ShopFor(e.branch, e.default) == Some(shop)
  }

  predicate Resets(e: Event, shop: nat, kind: Kind) {
    e.Configured? && e.kind == kind && e.shop == shop && e.next.Some?
  }

  /** No two documents, live or deleted, ever share a number. */
  lemma {:induction false} NumbersStayUnique(states: seq<State>, events: seq<Event>, k: nat)
    requires IsRun(states, events) && Unique(states[0].docs) && k < |states|
    ensures Unique(states[k].docs)
  {
    if k > 0 {
      NumbersStayUnique(states, events, k - 1);
      assert Steps(states[k - 1], events[k - 1], states[k]);
    }
  }

  lemma {:induction false} CounterPasses(states: seq<State>, events: seq<Event>, i: nat, j: nat, shop: nat, kind: Kind)
    requires IsRun(states, events) && i < j < |states| && ClaimsAt(events[i], shop, kind)
    requires forall k :: i < k < j ==> !Resets(events[k], shop, kind)
    ensures (shop, kind) in states[j].counters && states[j].counters[(shop, kind)].next > events[i].n
    decreases j
  {
    assert Steps(states[j - 1], events[j - 1], states[j]);
    if j > i + 1 { CounterPasses(states, events, i, j - 1, shop, kind); }
  }

  /** A later number from the same counter is strictly larger, unless the owner reset it between. */
  lemma LaterIsLarger(states: seq<State>, events: seq<Event>, i: nat, j: nat, shop: nat, kind: Kind)
    requires IsRun(states, events) && i < j < |events|
    requires ClaimsAt(events[i], shop, kind) && ClaimsAt(events[j], shop, kind)
    requires forall k :: i < k < j ==> !Resets(events[k], shop, kind)
    ensures events[i].n < events[j].n
  {
    CounterPasses(states, events, i, j, shop, kind);
    assert Steps(states[j], events[j], states[j + 1]);
  }
}
