// The duplicate-receipt detection of src/services/fraud/perceptual_hash.py: the
// difference hash of a 9 x 8 greyscale image, the Hamming distance by repeated clearing
// of the lowest one, and the store of fingerprints.
module PerceptualHash {
  import opened Basics
  import opened Bits

  // ----- distance -----

  function Distance(a: nat, b: nat): nat {
    PopCount(Xor(a, b))
  }

  // For hashes of one sign the loop ends and counts the ones of their difference.
  method HammingDistance(a: int, b: int) returns (count: nat)
    requires (a < 0) == (b < 0)
    ensures count == Distance(Folded(a), Folded(b))
  {
    var xor := IntXor(a, b);
    count := 0;
    while xor != 0
      invariant xor >= 0 && count + PopCount(xor) == PopCount(IntXor(a, b))
      decreases xor
    {
      ClearLowestOne(xor);
      xor := ClearLowest(xor);
      count := count + 1;
    }
  }

  // What is left after n rounds of the loop.
  function AfterRounds(x: int, n: nat): int {
    if n == 0 then x
    else
      var before := AfterRounds(x, n - 1);
      if before == 0 then 0 else ClearLowest(before)
  }

  lemma {:induction false} NegativeStaysNegative(x: int, n: nat)
    requires x < 0
    ensures AfterRounds(x, n) < 0
  {
    if n == 0 {
    } else {
      NegativeStaysNegative(x, n - 1);
    }
  }

  lemma {:induction false} RoundsRemoveOnes(x: nat, n: nat)
    requires n <= PopCount(x)
    ensures AfterRounds(x, n) >= 0 && PopCount(AfterRounds(x, n)) == PopCount(x) - n
  {
    if n == 0 {
    } else {
      RoundsRemoveOnes(x, n - 1);
      ClearLowestOne(AfterRounds(x, n - 1));
    }
  }

  lemma {:induction false} NoOnesIsZero(x: nat)
    requires PopCount(x) == 0
    ensures x == 0
  {
    if x == 0 {
    } else {
      NoOnesIsZero(x / 2);
    }
  }

  // The loop comes to an end exactly on hashes of one sign.
  lemma LoopEndsExactlyOnOneSign(a: int, b: int)
    ensures (exists n: nat :: AfterRounds(IntXor(a, b), n) == 0) <==> (a < 0) == (b < 0)
  {
    var x := IntXor(a, b);
    if (a < 0) == (b < 0) {
      RoundsRemoveOnes(x, PopCount(x));
      NoOnesIsZero(AfterRounds(x, PopCount(x)));
    } else {
      forall n: nat ensures AfterRounds(x, n) != 0 {
        NegativeStaysNegative(x, n);
      }
    }
  }

  // The positions below n where two hashes differ.
  function Differing(a: nat, b: nat, n: nat): set<nat> {
    set i: nat | i < n && Bit(a, i) != Bit(b, i)
  }

  // The distance counts them.
  lemma DistanceCountsDifferingBits(a: nat, b: nat, n: nat)
    requires a < Pow2(n) && b < Pow2(n)
    ensures Distance(a, b) == |Differing(a, b, n)|
    ensures Distance(a, b) <= n
  {
    XorIsBounded(a, b, n);
    OnesCount(Xor(a, b), n);
    forall i: nat ensures Bit(Xor(a, b), i) <==> Bit(a, i) != Bit(b, i) {
      BitOfXor(a, b, i);
    }
    assert Ones(Xor(a, b), n) == Differing(a, b, n);
    assert Differing(a, b, n) <= Range(n);
    SubsetCount(Differing(a, b, n), Range(n));
  }

  lemma {:induction false} ZeroOnlyOnEqualHashes(a: nat, b: nat)
    ensures Distance(a, b) == 0 <==> a == b
    decreases a + b
  {
    if a != 0 || b != 0 {
      ZeroOnlyOnEqualHashes(a / 2, b / 2);
      assert Xor(a, b) / 2 == Xor(a / 2, b / 2);
    }
  }

  lemma {:induction false} DistanceIsSymmetric(a: nat, b: nat)
    ensures Xor(a, b) == Xor(b, a) && Distance(a, b) == Distance(b, a)
    decreases a + b
  {
    if a != 0 || b != 0 { DistanceIsSymmetric(a / 2, b / 2); }
  }

  lemma {:induction false} TriangleInequality(a: nat, b: nat, c: nat)
    ensures Distance(a, c) <= Distance(a, b) + Distance(b, c)
    decreases a + b + c
  {
    if a != 0 || b != 0 || c != 0 {
      TriangleInequality(a / 2, b / 2, c / 2);
      LowestDigit(a, c);
      LowestDigit(a, b);
      LowestDigit(b, c);
    }
  }

  lemma LowestDigit(a: nat, b: nat)
    ensures Distance(a, b) == Distance(a / 2, b / 2) + if a % 2 != b % 2 then 1 else 0
  {
    assert Xor(a, b) == 2 * Xor(a / 2, b / 2) + if a % 2 != b % 2 then 1 else 0;
    assert Xor(a, b) / 2 == Xor(a / 2, b / 2);
  }

  // The positions below n where two hashes of either sign differ.
  function DifferingIntBits(a: int, b: int, n: nat): set<nat> {
    set i: nat | i < n && IntBit(a, i) != IntBit(b, i)
  }

  // On hashes of one sign, negative ones too, the distance that the loop returns is the
  // number of differing bits of the hashes themselves, and zero only on equal ones.
  lemma DistanceOnOneSign(a: int, b: int, n: nat)
    requires (a < 0) == (b < 0) && Folded(a) < Pow2(n) && Folded(b) < Pow2(n)
    ensures Distance(Folded(a), Folded(b)) == |DifferingIntBits(a, b, n)|
    ensures Distance(Folded(a), Folded(b)) == 0 <==> a == b
  {
    var x := IntXor(a, b);
    XorIsBounded(Folded(a), Folded(b), n);
    OnesCount(x, n);
    forall i: nat ensures Bit(x, i) <==> IntBit(a, i) != IntBit(b, i) {
      BitOfIntXor(a, b, i);
      assert Folded(x) == x;
    }
    assert Ones(x, n) == DifferingIntBits(a, b, n);
    ZeroOnlyOnEqualHashes(Folded(a), Folded(b));
  }

  // ----- the difference hash -----

  const WIDTH := 9
  const HEIGHT := 8

  type Pixels = p: seq<int> | |p| == WIDTH * HEIGHT witness Repeat(0, WIDTH * HEIGHT)

  predicate Brighter(p: Pixels, row: nat, col: nat)
    requires row < HEIGHT && col < WIDTH - 1
  {
    p[row * WIDTH + col] > p[row * WIDTH + col + 1]
  }

  predicate BrighterAt(p: Pixels, j: nat)
    requires j < 64
  {
    Brighter(p, j / 8, j % 8)
  }

  // The first n differences, each on its own power of two.
  function Packed(p: Pixels, n: nat): nat
    requires n <= 64
  {
    if n == 0 then 0 else Packed(p, n - 1) + if BrighterAt(p, n - 1) then Pow2(n - 1) else 0
  }

  lemma {:induction false} PackedIsBounded(p: Pixels, n: nat)
    requires n <= 64
    ensures Packed(p, n) < Pow2(n)
  {
    if n == 0 {
    } else {
      PackedIsBounded(p, n - 1);
    }
  }

  lemma {:induction false} PackedBits(p: Pixels, n: nat, i: nat)
    requires i < n <= 64
    ensures Bit(Packed(p, n), i) <==> BrighterAt(p, i)
  {
    PackedIsBounded(p, n - 1);
    BitsOfSum(Packed(p, n - 1), n - 1, i);
    if i < n - 1 { PackedBits(p, n - 1, i); }
  }

  method ComputeDHash(p: Pixels) returns (fingerprint: nat)
    ensures fingerprint == Packed(p, 64)
  {
    var bitIndex: nat := 0;
    fingerprint := 0;
    for row := 0 to HEIGHT
      invariant bitIndex == row * 8 && fingerprint == Packed(p, bitIndex)
    {
      for col := 0 to WIDTH - 1
        invariant bitIndex == row * 8 + col && fingerprint == Packed(p, bitIndex)
      {
        var left, right := p[row * WIDTH + col], p[row * WIDTH + col + 1];
        assert bitIndex / 8 == row && bitIndex % 8 == col;
        PackedIsBounded(p, bitIndex);
        OrWithHigherBit(fingerprint, bitIndex);
        if left > right {
          fingerprint := Or(fingerprint, Pow2(bitIndex));
        }
        bitIndex := bitIndex + 1;
      }
    }
  }

  // Bit 8 * row + col says whether the pixel is brighter than its right neighbour, and
  // there are no bits from the 64th on.
  lemma FingerprintBits(p: Pixels, row: nat, col: nat)
    requires row < HEIGHT && col < WIDTH - 1
    ensures Bit(Packed(p, 64), row * 8 + col) <==> Brighter(p, row, col)
    ensures Packed(p, 64) < Pow2(64)
  {
    PackedBits(p, 64, row * 8 + col);
    PackedIsBounded(p, 64);
  }

  predicate SameGradients(p: Pixels, q: Pixels) {
    forall row: nat, col: nat | row < HEIGHT && col < WIDTH - 1 :: Brighter(p, row, col) <==> Brighter(q, row, col)
  }

  // Images have equal fingerprints exactly when every pixel compares alike with its
  // right neighbour.
  lemma EqualFingerprints(p: Pixels, q: Pixels)
    ensures Packed(p, 64) == Packed(q, 64) <==> SameGradients(p, q)
  {
    if Packed(p, 64) == Packed(q, 64) {
      forall row: nat, col: nat | row < HEIGHT && col < WIDTH - 1 ensures Brighter(p, row, col) <==> Brighter(q, row, col) {
        FingerprintBits(p, row, col);
        FingerprintBits(q, row, col);
      }
    }
    if SameGradients(p, q) { SamePacking(p, q, 64); }
  }

  lemma {:induction false} SamePacking(p: Pixels, q: Pixels, n: nat)
    requires n <= 64 && SameGradients(p, q)
    ensures Packed(p, n) == Packed(q, n)
  {
    if n == 0 {
    } else {
      SamePacking(p, q, n - 1);
      assert Brighter(p, (n - 1) / 8, (n - 1) % 8) <==> Brighter(q, (n - 1) / 8, (n - 1) % 8);
    }
  }

  // ----- the detector -----

  datatype Entry = Entry(receipt: string, tenant: string, custodian: string, fingerprint: nat, date: string)

  datatype DuplicateFlag = DuplicateFlag(newReceipt: string, existingReceipt: string, distance: nat)

  function EntriesOf(store: map<string, seq<Entry>>, tenant: string): seq<Entry> {
    if tenant in store then store[tenant] else []
  }

  // A flag names the earliest stored fingerprint within the threshold; without one,
  // none is within it.
  predicate Judges(entries: seq<Entry>, fingerprint: nat, threshold: int, receipt: string, flag: Option<DuplicateFlag>) {
    match flag
    case None => forall e :: e in entries ==> Distance(fingerprint, e.fingerprint) > threshold
    case Some(f) =>
      exists i :: 0 <= i < |entries| && NamesEarliest(entries, fingerprint, threshold, i) &&
        f == DuplicateFlag(receipt, entries[i].receipt, Distance(fingerprint, entries[i].fingerprint))
  }

  predicate NamesEarliest(entries: seq<Entry>, fingerprint: nat, threshold: int, i: nat)
    requires i < |entries|
  {
    && Distance(fingerprint, entries[i].fingerprint) <= threshold
    && forall j :: 0 <= j < i ==> Distance(fingerprint, entries[j].fingerprint) > threshold
  }

  class DuplicateReceiptDetector {
    const threshold: int
    var store: map<string, seq<Entry>>

    constructor (threshold: int)
      ensures this.threshold == threshold && store == map[]
    {
      this.threshold := threshold;
      store := map[];
    }

    // No pixels stands for an image that cannot be decoded.
    method Register(tenant: string, receipt: string, custodian: string, image: Option<Pixels>, date: string)
      returns (r: Outcome<Option<DuplicateFlag>, ()>)
      modifies this
      ensures r.Err? <==> image.None?
      ensures r.Err? ==> store == old(store)
      ensures r.Ok? ==> Judges(EntriesOf(old(store), tenant), Packed(image.value, 64), threshold, receipt, r.value)
      ensures r.Ok? ==> store == old(store)[tenant := EntriesOf(old(store), tenant) + [Entry(receipt, tenant, custodian, Packed(image.value, 64), date)]]
    {
      if image.None? {
        return Err(());
      }
      var fingerprint := ComputeDHash(image.value);
      var entries := EntriesOf(store, tenant);
      var entry := Entry(receipt, tenant, custodian, fingerprint, date);
      for i := 0 to |entries|
        invariant forall j :: 0 <= j < i ==> Distance(fingerprint, entries[j].fingerprint) > threshold
        invariant store == old(store)
      {
        var distance := HammingDistance(fingerprint, entries[i].fingerprint);
        if distance <= threshold {
          store := store[tenant := entries + [entry]];
          assert NamesEarliest(entries, fingerprint, threshold, i);
          return Ok(Some(DuplicateFlag(receipt, entries[i].receipt, distance)));
        }
      }
      store := store[tenant := entries + [entry]];
      return Ok(None);
    }

    method ClearTenant(tenant: string)
      modifies this
      ensures store == old(store) - {tenant}
    {
      store := store - {tenant};
    }
  }

  // A receipt is flagged exactly when some stored fingerprint is near enough; in
  // particular the same picture is always flagged the second time.
  lemma FlaggedExactlyWhenNear(entries: seq<Entry>, fingerprint: nat, threshold: int, receipt: string, flag: Option<DuplicateFlag>)
    requires Judges(entries, fingerprint, threshold, receipt, flag)
    ensures flag.Some? <==> exists e :: e in entries && Distance(fingerprint, e.fingerprint) <= threshold
    ensures threshold >= 0 && (exists e :: e in entries && e.fingerprint == fingerprint) ==> flag.Some?
  {
    if flag.Some? {
      var i :| 0 <= i < |entries| && NamesEarliest(entries, fingerprint, threshold, i);
      assert entries[i] in entries;
    }
    if threshold >= 0 && exists e :: e in entries && e.fingerprint == fingerprint {
      ZeroOnlyOnEqualHashes(fingerprint, fingerprint);
    }
  }

  // The answer is determined by the entries and the fingerprint.
  lemma JudgementIsUnique(entries: seq<Entry>, fingerprint: nat, threshold: int, receipt: string, f: Option<DuplicateFlag>, g: Option<DuplicateFlag>)
    requires Judges(entries, fingerprint, threshold, receipt, f) && Judges(entries, fingerprint, threshold, receipt, g)
    ensures f == g
  {
    FlaggedExactlyWhenNear(entries, fingerprint, threshold, receipt, f);
    FlaggedExactlyWhenNear(entries, fingerprint, threshold, receipt, g);
    if f.Some? {
      var i :| 0 <= i < |entries| && NamesEarliest(entries, fingerprint, threshold, i) && f.value == DuplicateFlag(receipt, entries[i].receipt, Distance(fingerprint, entries[i].fingerprint));
      var j :| 0 <= j < |entries| && NamesEarliest(entries, fingerprint, threshold, j) && g.value == DuplicateFlag(receipt, entries[j].receipt, Distance(fingerprint, entries[j].fingerprint));
      assert i == j;
    }
  }

  // Two receipts flagged against one entry differ in at most twice the threshold.
  lemma FlaggedTogether(x: nat, y: nat, e: Entry, threshold: int)
    requires Distance(x, e.fingerprint) <= threshold && Distance(y, e.fingerprint) <= threshold
    ensures Distance(x, y) <= 2 * threshold
  {
    TriangleInequality(x, e.fingerprint, y);
    DistanceIsSymmetric(y, e.fingerprint);
  }
}
