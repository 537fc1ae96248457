/** Item barcodes: an eight-digit prefix that identifies the item and five digits that carry its cost. */
module Barcode {
  import opened Wrappers
  import opened Digits

  /** What a barcode is built from when the item has no prefix yet. */
  datatype Seed = Seed(sku: string, id: string)

  const ATTEMPTS := 30
  const MOST := 99999

  function Round(x: real): int { (x + 0.5).Floor }

  function Cents(cost: real): (c: nat)
    ensures c as real - 0.5 <= (if cost > 0.0 then cost else 0.0) * 100.0 <= c as real + 0.5
  {
    Round((if cost > 0.0 then cost else 0.0) * 100.0)
  }

  function Capped(c: nat): nat { if c < MOST then c else MOST }

  function EncodeCostSuffix(cost: real): string { Pad(Decimal(Capped(Cents(cost))), 5) }

  /** Only the digits of a text. */
  function OnlyDigits(s: string): (r: string)
    ensures AllDigits(r)
  {
    if |s| == 0 then "" else OnlyDigits(s[..|s| - 1]) + (if IsDigit(s[|s| - 1]) then [s[|s| - 1]] else "")
  }

  function DecodeCost(barcode: string): Option<real> {
    var digits := OnlyDigits(barcode);
    if |digits| < 5 then None else Some(Value(digits[|digits| - 5..]) as real / 100.0)
  }

  function PadEnd(s: string, width: nat): (r: string)
    ensures |r| == if |s| < width then width else |s|
    ensures s <= r
    ensures AllDigits(s) ==> AllDigits(r)
    decreases width - |s|
  {
    if |s| >= width then s else PadEnd(s + "0", width)
  }

  function First(s: string, n: nat): string { if |s| > n then s[..n] else s }

  function PrefixFrom(base: string): string { First(PadEnd(OnlyDigits("890" + base), 8), 8) }

  function FreshPrefix(seed: Seed): string {
    PrefixFrom(if OnlyDigits(seed.sku) != "" then OnlyDigits(seed.sku) else OnlyDigits(seed.id))
  }

  function Prefix(seed: Seed, existing: Option<string>): string {
    var kept := if existing.Some? then First(OnlyDigits(existing.value), 8) else "";
    if |kept| < 8 then FreshPrefix(seed) else kept
  }

  function Build(seed: Seed, cost: real, existing: Option<string>): string {
    Prefix(seed, existing) + EncodeCostSuffix(cost)
  }

  // ----- Format and decoding -----

  lemma {:induction false} DigitsStay(s: string)
    requires AllDigits(s)
    ensures OnlyDigits(s) == s
  {
    if |s| > 0 {
      DigitsStay(s[..|s| - 1]);
      assert s == s[..|s| - 1] + [s[|s| - 1]];
    }
  }

  lemma PrefixIsEightDigits(seed: Seed, existing: Option<string>)
    ensures |Prefix(seed, existing)| == 8 && AllDigits(Prefix(seed, existing))
  {
  }

  lemma SuffixIsFiveDigits(cost: real)
    ensures |EncodeCostSuffix(cost)| == 5 && AllDigits(EncodeCostSuffix(cost))
            && Value(EncodeCostSuffix(cost)) == Capped(Cents(cost))
  {
    var c := Capped(Cents(cost));
    PadDigits(Decimal(c), 5);
    ValueOfDecimal(c);
    assert Power(5) == 100000 by {
      assert Power(1) == 10;
      assert Power(2) == 100;
      assert Power(3) == 1000;
      assert Power(4) == 10000;
    }
    DecimalFits(c, 5);
  }

  /** Thirteen digits, the last five of which give the cost back: to the nearest cent, and up to
      the most that five digits hold. */
  predicate Carries(barcode: string, cost: real) {
    |barcode| == 13 && AllDigits(barcode) && DecodeCost(barcode) == Some(Capped(Cents(cost)) as real / 100.0)
  }

  lemma BarcodeRoundTrip(seed: Seed, cost: real, existing: Option<string>)
    ensures Carries(Build(seed, cost, existing), cost)
    ensures 0.0 <= cost <= 999.99 ==> -0.005 <= DecodeCost(Build(seed, cost, existing)).value - cost <= 0.005
  {
    PrefixIsEightDigits(seed, existing);
    SuffixIsFiveDigits(cost);
    var b := Build(seed, cost, existing);
    DigitsStay(b);
    assert b[8..] == EncodeCostSuffix(cost);
  }

  // ----- Keeping the prefix -----

  /** The part of a barcode handed on to the next one. */
  function Handed(barcode: string): Option<string> { Some(First(OnlyDigits(barcode), 8)) }

  lemma RebuildKeepsPrefix(seed: Seed, cost: real, barcode: string)
    requires |barcode| == 13 && AllDigits(barcode)
    ensures Build(seed, cost, Handed(barcode))[..8] == barcode[..8]
  {
    DigitsStay(barcode);
    DigitsStay(barcode[..8]);
    BarcodeRoundTrip(seed, cost, Handed(barcode));
  }

  /** One change of cost, with the item's SKU as it is then and the barcodes other items have. */
  datatype Change = Change(sku: string, cost: real, taken: set<string>)

  /** What is tried at each attempt: first the item's own prefix, then ones with the SKU extended. */
  function Candidates(seed: Seed, cost: real, existing: Option<string>): nat -> string {
    (attempt: nat) =>
      if attempt == 0 then Build(seed, cost, existing)
      else Build(Seed(seed.sku + Text(attempt), seed.id), cost, None)
  }

  function Fallback(seed: Seed, cost: real): string {
    var digits := OnlyDigits(seed.id);
    Build(Seed(if digits != "" then digits else seed.id, seed.id), cost, None)
  }

  lemma CandidateCarries(seed: Seed, cost: real, existing: Option<string>, attempt: nat)
    ensures Carries(Candidates(seed, cost, existing)(attempt), cost)
  {
    if attempt == 0 {
      BarcodeRoundTrip(seed, cost, existing);
    } else {
      BarcodeRoundTrip(Seed(seed.sku + Text(attempt), seed.id), cost, None);
    }
  }

  lemma FallbackCarries(seed: Seed, cost: real)
    ensures Carries(Fallback(seed, cost), cost)
  {
    var digits := OnlyDigits(seed.id);
    BarcodeRoundTrip(Seed(if digits != "" then digits else seed.id, seed.id), cost, None);
  }

  predicate AllTaken(taken: set<string>, candidates: nat -> string, n: nat) {
    forall k: nat :: k < n ==> candidates(k) in taken
  }

  /** The first candidate nobody else has; if all are taken, the fallback, which is not checked. */
  ghost predicate Picks(taken: set<string>, candidates: nat -> string, fallback: string, barcode: string) {
    || (exists k: nat :: k < ATTEMPTS && FirstFree(taken, candidates, k, barcode))
    || (AllTaken(taken, candidates, ATTEMPTS) && barcode == fallback)
  }

  predicate FirstFree(taken: set<string>, candidates: nat -> string, k: nat, barcode: string) {
    barcode == candidates(k) && barcode !in taken && AllTaken(taken, candidates, k)
  }

  method TryEach(taken: set<string>, candidates: nat -> string, fallback: string) returns (barcode: string)
    ensures Picks(taken, candidates, fallback, barcode)
  {
    var attempt := 0;
    while attempt < ATTEMPTS
      invariant 0 <= attempt <= ATTEMPTS && AllTaken(taken, candidates, attempt)
    {
      barcode := candidates(attempt);
      if barcode !in taken {
        assert FirstFree(taken, candidates, attempt, barcode);
        return;
      }
      attempt := attempt + 1;
    }
    barcode := fallback;
  }

  ghost predicate IsUniqueBarcode(taken: set<string>, seed: Seed, cost: real, existing: Option<string>,
                                  barcode: string) {
    Picks(taken, Candidates(seed, cost, existing), Fallback(seed, cost), barcode)
  }

  method GenerateUniqueBarcode(taken: set<string>, seed: Seed, cost: real, existing: Option<string>)
    returns (barcode: string)
    ensures IsUniqueBarcode(taken, seed, cost, existing, barcode)
  {
    barcode := TryEach(taken, Candidates(seed, cost, existing), Fallback(seed, cost));
  }

  /** A generated barcode carries the cost; and if the first candidate is free, it is that one. */
  lemma GeneratedCarries(taken: set<string>, seed: Seed, cost: real, existing: Option<string>, barcode: string)
    requires IsUniqueBarcode(taken, seed, cost, existing, barcode)
    ensures Carries(barcode, cost)
    ensures Candidates(seed, cost, existing)(0) !in taken ==> barcode == Build(seed, cost, existing)
  {
    if k: nat :| k < ATTEMPTS && FirstFree(taken, Candidates(seed, cost, existing), k, barcode) {
      CandidateCarries(seed, cost, existing, k);
    } else {
      FallbackCarries(seed, cost);
    }
  }

  /** A history of an item's barcodes, one more after each change of cost, in which the first
      candidate was always free. */
  ghost predicate Rebuilds(id: string, codes: seq<string>, changes: seq<Change>) {
    && |codes| == |changes| + 1
    && |codes[0]| == 13 && AllDigits(codes[0])
    && forall n :: 0 <= n < |changes| ==> Rebuilt(id, codes[n], changes[n], codes[n + 1])
  }

  ghost predicate Rebuilt(id: string, before: string, ch: Change, after: string) {
    && Candidates(Seed(ch.sku, id), ch.cost, Handed(before))(0) !in ch.taken
    && IsUniqueBarcode(ch.taken, Seed(ch.sku, id), ch.cost, Handed(before), after)
  }

  /** Whatever the costs and SKUs along the way, the item keeps its prefix and its barcode tells its
      latest cost. */
  lemma {:induction false} PrefixKept(id: string, codes: seq<string>, changes: seq<Change>, n: nat)
    requires Rebuilds(id, codes, changes) && n < |codes|
    ensures |codes[n]| == 13 && AllDigits(codes[n]) && codes[n][..8] == codes[0][..8]
    ensures n > 0 ==> Carries(codes[n], changes[n - 1].cost)
  {
    if n > 0 {
      PrefixKept(id, codes, changes, n - 1);
      assert Rebuilt(id, codes[n - 1], changes[n - 1], codes[n]);
      RebuiltKeeps(id, codes[n - 1], changes[n - 1], codes[n]);
    }
  }

  lemma RebuiltKeeps(id: string, before: string, ch: Change, after: string)
    requires |before| == 13 && AllDigits(before) && Rebuilt(id, before, ch, after)
    ensures Carries(after, ch.cost) && after[..8] == before[..8]
  {
    GeneratedCarries(ch.taken, Seed(ch.sku, id), ch.cost, Handed(before), after);
    RebuildKeepsPrefix(Seed(ch.sku, id), ch.cost, before);
  }

  // ----- What retrying is worth -----

  lemma {:induction false} DigitsConcat(a: string, b: string)
    ensures OnlyDigits(a + b) == OnlyDigits(a) + OnlyDigits(b)
  {
    if |b| == 0 {
      assert a + b == a;
    } else {
      DigitsConcat(a, b[..|b| - 1]);
      assert (a + b)[..|a + b| - 1] == a + b[..|b| - 1];
    }
  }

  lemma LongBase(base: string)
    requires AllDigits(base) && |base| >= 5
    ensures PrefixFrom(base) == "890" + base[..5]
  {
    var s := "890" + base;
    assert AllDigits(s) by {
      forall k | 0 <= k < |s| ensures IsDigit(s[k]) { if k >= 3 { assert s[k] == base[k - 3]; } }
    }
    DigitsStay(s);
    assert First(s, 8) == s[..8] == "890" + base[..5];
  }

  lemma LongSku(seed: Seed)
    requires |OnlyDigits(seed.sku)| >= 5
    ensures FreshPrefix(seed) == "890" + OnlyDigits(seed.sku)[..5]
  {
    LongBase(OnlyDigits(seed.sku));
  }

  /** With five digits or more in the SKU, what a retry appends falls outside the prefix: every retry
      tries the same barcode. */
  lemma {:induction false} RetriesRepeat(seed: Seed, cost: real, existing: Option<string>, attempt: nat)
    requires |OnlyDigits(seed.sku)| >= 5 && attempt > 0
    ensures Candidates(seed, cost, existing)(attempt) == Build(seed, cost, None)
  {
    hide Text, EncodeCostSuffix;
    var retry := Seed(seed.sku + Text(attempt), seed.id);
    DigitsConcat(seed.sku, Text(attempt));
    assert OnlyDigits(retry.sku)[..5] == OnlyDigits(seed.sku)[..5];
    LongSku(seed);
    LongSku(retry);
  }

  /** So if that barcode and the first candidate are taken, no attempt finds a free one. */
  lemma RetriesCannotHelp(taken: set<string>, seed: Seed, cost: real, existing: Option<string>, barcode: string)
    requires |OnlyDigits(seed.sku)| >= 5 && Build(seed, cost, existing) in taken && Build(seed, cost, None) in taken
    requires IsUniqueBarcode(taken, seed, cost, existing, barcode)
    ensures barcode == Fallback(seed, cost)
  {
    forall k: nat | k < ATTEMPTS
      ensures Candidates(seed, cost, existing)(k) in taken
    {
      if k > 0 { RetriesRepeat(seed, cost, existing, k); }
    }
  }

  /** A short base keeps its place in the prefix. */
  lemma BaseShows(base: string, i: nat)
    requires AllDigits(base) && i < |base| && i < 5
    ensures |PrefixFrom(base)| == 8 && PrefixFrom(base)[3 + i] == base[i]
  {
    var s := "890" + base;
    assert AllDigits(s) by {
      forall k | 0 <= k < |s| ensures IsDigit(s[k]) { if k >= 3 { assert s[k] == base[k - 3]; } }
    }
    DigitsStay(s);
    assert s <= PadEnd(s, 8);
  }

  lemma OneDigitText(d: nat)
    requires 0 < d < 10
    ensures Text(d) == [DigitChar(d)] && AllDigits(Text(d)) && OnlyDigits(Text(d)) == Text(d)
  {
    assert Decimal(d) == [DigitChar(d)];
    DigitsStay(Text(d));
  }

  lemma RetryPrefix(seed: Seed, d: nat)
    requires |OnlyDigits(seed.sku)| < 5 && 0 < d < 10
    ensures var prefix := FreshPrefix(Seed(seed.sku + Text(d), seed.id));
            |prefix| == 8 && prefix[3 + |OnlyDigits(seed.sku)|] == DigitChar(d)
  {
    hide Text, PrefixFrom, OnlyDigits;
    var base := OnlyDigits(seed.sku) + Text(d);
    OneDigitText(d);
    DigitsConcat(seed.sku, Text(d));
    assert base[|OnlyDigits(seed.sku)|] == DigitChar(d);
    BaseShows(base, |OnlyDigits(seed.sku)|);
  }

  lemma RetryShows(seed: Seed, cost: real, existing: Option<string>, d: nat)
    requires |OnlyDigits(seed.sku)| < 5 && 0 < d < 10
    ensures |Candidates(seed, cost, existing)(d)| == 13
    ensures Candidates(seed, cost, existing)(d)[3 + |OnlyDigits(seed.sku)|] == DigitChar(d)
  {
    hide Text, EncodeCostSuffix, FreshPrefix, OnlyDigits;
    RetryPrefix(seed, d);
    SuffixIsFiveDigits(cost);
  }

  /** With fewer, what is appended shows: the first retry and the second try different barcodes. */
  lemma RetriesDiffer(seed: Seed, cost: real, existing: Option<string>)
    requires |OnlyDigits(seed.sku)| < 5
    ensures Candidates(seed, cost, existing)(1) != Candidates(seed, cost, existing)(2)
  {
    RetryShows(seed, cost, existing, 1);
    RetryShows(seed, cost, existing, 2);
    hide Candidates, OnlyDigits;
    assert DigitChar(1) != DigitChar(2);
  }

  /** All retries try one and the same barcode exactly when the SKU has at least five digits. */
  lemma RetriesRepeatExactlyWhen(seed: Seed, cost: real, existing: Option<string>)
    ensures (forall j: nat, k: nat :: 0 < j < ATTEMPTS && 0 < k < ATTEMPTS
               ==> Candidates(seed, cost, existing)(j) == Candidates(seed, cost, existing)(k))
            <==> |OnlyDigits(seed.sku)| >= 5
  {
    if |OnlyDigits(seed.sku)| >= 5 {
      forall j: nat, k: nat | 0 < j < ATTEMPTS && 0 < k < ATTEMPTS
        ensures Candidates(seed, cost, existing)(j) == Candidates(seed, cost, existing)(k)
      {
        RetriesRepeat(seed, cost, existing, j);
        RetriesRepeat(seed, cost, existing, k);
      }
    } else {
      RetriesDiffer(seed, cost, existing);
    }
  }
}
