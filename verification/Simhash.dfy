/** Bits of natural numbers, as Python's unbounded integers have them. */
module Bits {

  function Pow2(n: nat): (p: nat)
    ensures p > 0
  {
    if n == 0 then 1 else 2 * Pow2(n - 1)
  }

  predicate Bit(x: nat, i: nat) {
    if i == 0 then x % 2 == 1 else Bit(x / 2, i - 1)
  }

  function And(x: nat, y: nat): nat {
    if x == 0 || y == 0 then 0
    else 2 * And(x / 2, y / 2) + if x % 2 == 1 && y % 2 == 1 then 1 else 0
  }

  function Or(x: nat, y: nat): nat {
    if x == 0 then y else if y == 0 then x
    else 2 * Or(x / 2, y / 2) + if x % 2 == 1 || y % 2 == 1 then 1 else 0
  }

  function Xor(x: nat, y: nat): nat {
    if x == 0 then y else if y == 0 then x
    else 2 * Xor(x / 2, y / 2) + if x % 2 != y % 2 then 1 else 0
  }

  /** The number of one bits. */
  function Ones(x: nat): nat {
    if x == 0 then 0 else x % 2 + Ones(x / 2)
  }

  lemma {:induction false} AndSelf(x: nat)
    ensures And(x, x) == x
  {
    if x > 0 {
      AndSelf(x / 2);
    }
  }

  /** `x & (x - 1)` clears the lowest one bit. */
  lemma {:induction false} ClearLowest(x: nat)
    requires x > 0
    ensures And(x, x - 1) < x && Ones(And(x, x - 1)) + 1 == Ones(x)
  {
    if x == 1 {
      assert And(1, 0) == 0;
      assert Ones(1) == 1 + Ones(0);
    } else if x % 2 == 1 {
      assert (x - 1) / 2 == x / 2;
      AndSelf(x / 2);
      assert And(x, x - 1) == 2 * (x / 2);
    } else {
      assert (x - 1) / 2 == x / 2 - 1;
      ClearLowest(x / 2);
      assert And(x, x - 1) == 2 * And(x / 2, x / 2 - 1);
      DoubleOnes(And(x / 2, x / 2 - 1));
    }
  }

  lemma {:induction false} DoubleOnes(y: nat)
    ensures Ones(2 * y) == Ones(y)
  {
    assert 2 * y / 2 == y;
  }

  /** In how many of the lowest `n` positions two numbers differ. */
  function Differing(x: nat, y: nat, n: nat): nat {
    if n == 0 then 0 else Differing(x, y, n - 1) + if Bit(x, n - 1) != Bit(y, n - 1) then 1 else 0
  }

  lemma {:induction false} DifferingLow(x: nat, y: nat, n: nat)
    requires n > 0
    ensures Differing(x, y, n) == Differing(x / 2, y / 2, n - 1) + if x % 2 != y % 2 then 1 else 0
  {
    if n > 1 {
      DifferingLow(x, y, n - 1);
    } else {
      assert Differing(x, y, 0) == 0;
    }
  }

  lemma {:induction false} OnesOfXor(x: nat, y: nat, n: nat)
    requires x < Pow2(n) && y < Pow2(n)
    ensures Ones(Xor(x, y)) == Differing(x, y, n)
  {
    if n > 0 {
      OnesOfXor(x / 2, y / 2, n - 1);
      DifferingLow(x, y, n);
      XorLow(x, y);
    }
  }

  lemma {:induction false} XorLow(x: nat, y: nat)
    ensures Ones(Xor(x, y)) == Ones(Xor(x / 2, y / 2)) + if x % 2 != y % 2 then 1 else 0
  {
    var z := Xor(x / 2, y / 2);
    if x > 0 && y > 0 {
      assert Xor(x, y) / 2 == z;
    }
  }

  lemma {:induction false} XorZero(x: nat)
    ensures Xor(x, x) == 0
  {
    if x > 0 {
      XorZero(x / 2);
    }
  }

  lemma {:induction false} XorSymmetric(x: nat, y: nat)
    ensures Xor(x, y) == Xor(y, x)
  {
    if x > 0 && y > 0 {
      XorSymmetric(x / 2, y / 2);
    }
  }

  lemma {:induction false} ZeroBit(i: nat)
    ensures !Bit(0, i)
  {
    if i > 0 {
      ZeroBit(i - 1);
    }
  }

  /** The three operations work bit by bit. */
  lemma {:induction false} BitByBit(x: nat, y: nat, i: nat)
    ensures Bit(And(x, y), i) <==> Bit(x, i) && Bit(y, i)
    ensures Bit(Or(x, y), i) <==> Bit(x, i) || Bit(y, i)
    ensures Bit(Xor(x, y), i) <==> Bit(x, i) != Bit(y, i)
  {
    ZeroBit(i);
    if x > 0 && y > 0 {
      assert And(x, y) / 2 == And(x / 2, y / 2);
      assert Or(x, y) / 2 == Or(x / 2, y / 2);
      assert Xor(x, y) / 2 == Xor(x / 2, y / 2);
      if i > 0 {
        BitByBit(x / 2, y / 2, i - 1);
      }
    }
  }

  lemma {:induction false} BitBelow(x: nat, n: nat, i: nat)
    requires x < Pow2(n) && n <= i
    ensures !Bit(x, i)
  {
    if n > 0 {
      BitBelow(x / 2, n - 1, i - 1);
    } else if i > 0 {
      BitBelow(x / 2, 0, i - 1);
    }
  }

  /** Setting bit `n` of a number below `2^n`. */
  lemma {:induction false} SetBit(x: nat, n: nat, i: nat)
    requires x < Pow2(n)
    ensures Or(x, Pow2(n)) == x + Pow2(n)
    ensures Bit(x + Pow2(n), i) <==> i == n || Bit(x, i)
  {
    if n == 0 {
      if i > 0 {
        BitBelow(0, 0, i - 1);
      }
    } else {
      var m := i - 1;
      assert (x + Pow2(n)) / 2 == x / 2 + Pow2(n - 1);
      assert Pow2(n) / 2 == Pow2(n - 1);
      SetBit(x / 2, n - 1, if i > 0 then i - 1 else 0);
    }
  }

  /** The test `x & (1 << i)`. */
  lemma {:induction false} TestBit(x: nat, i: nat)
    ensures And(x, Pow2(i)) != 0 <==> Bit(x, i)
  {
    if i == 0 {
      assert x > 0 ==> And(x / 2, 0) == 0;
      assert Pow2(0) == 1;
    } else {
      TestBit(x / 2, i - 1);
      assert Pow2(i) / 2 == Pow2(i - 1);
      if x == 0 {
        assert And(0, Pow2(i - 1)) == 0;
      }
    }
  }
}

/** Near-duplicate detection by similarity hashes. */
module Simhash {
  import opened Common
  import opened Bits

  const HASH_BITS: nat := 64

  // ----- Hamming distance -----

  function Distance(a: nat, b: nat): nat {
    Ones(Xor(a, b))
  }

  /** The loop `while xor: xor &= xor - 1`. */
  method HammingDistance(a: nat, b: nat) returns (distance: nat)
    ensures distance == Distance(a, b)
  {
    var xor := Xor(a, b);
    distance := 0;
    while xor != 0
      invariant distance + Ones(xor) == Distance(a, b)
      decreases xor
    {
      ClearLowest(xor);
      distance := distance + 1;
      xor := And(xor, xor - 1);
    }
  }

  /** The distance counts the positions in which the hashes differ; it is symmetric and 0 of a hash to itself. */
  lemma {:induction false} DistanceIsHamming(a: nat, b: nat, n: nat)
    requires a < Pow2(n) && b < Pow2(n)
    ensures Distance(a, b) == Differing(a, b, n)
    ensures Distance(a, b) == Distance(b, a)
    ensures Distance(a, a) == 0
  {
    OnesOfXor(a, b, n);
    XorSymmetric(a, b);
    XorZero(a);
  }

  // ----- the fingerprint -----

  /** The sum over the tokens of +1 or -1 for bit `i`. */
  function Votes(hashes: seq<nat>, i: nat): int {
    if hashes == [] then 0
    else Votes(hashes[..|hashes| - 1], i) + if Bit(hashes[|hashes| - 1], i) then 1 else -1
  }

  function Ayes(hashes: seq<nat>, i: nat): nat {
    if hashes == [] then 0
    else Ayes(hashes[..|hashes| - 1], i) + if Bit(hashes[|hashes| - 1], i) then 1 else 0
  }

  /** The lowest `n` bits of the fingerprint. */
  function Fingerprint(hashes: seq<nat>, n: nat): nat {
    if n == 0 then 0
    else Fingerprint(hashes, n - 1) + if Votes(hashes, n - 1) > 0 then Pow2(n - 1) else 0
  }

  method ComputeSimhash(hashes: seq<nat>, bits: nat) returns (fingerprint: nat)
    ensures fingerprint == Fingerprint(hashes, bits)
  {
    hide Bit;
    var vector := new int[bits](i => 0);
    for t := 0 to |hashes|
      invariant forall i :: 0 <= i < bits ==> vector[i] == Votes(hashes[..t], i)
    {
      Tally(vector, hashes, t);
    }
    assert hashes[..|hashes|] == hashes;
    fingerprint := 0;
    for i := 0 to bits
      invariant fingerprint == Fingerprint(hashes, i)
      invariant forall j :: 0 <= j < bits ==> vector[j] == Votes(hashes, j)
    {
      if vector[i] > 0 {
        FingerprintBelow(hashes, i);
        SetBit(fingerprint, i, 0);
        fingerprint := Or(fingerprint, Pow2(i));
      }
    }
  }

  /** One token's votes: the inner loop. */
  method Tally(vector: array<int>, hashes: seq<nat>, t: nat)
    requires t < |hashes|
    requires forall i :: 0 <= i < vector.Length ==> vector[i] == Votes(hashes[..t], i)
    modifies vector
    ensures forall i :: 0 <= i < vector.Length ==> vector[i] == Votes(hashes[..t + 1], i)
  {
    hide Bit;
    assert hashes[..t + 1][..t] == hashes[..t];
    for i := 0 to vector.Length
      invariant forall j :: 0 <= j < i ==> vector[j] == Votes(hashes[..t + 1], j)
      invariant forall j :: i <= j < vector.Length ==> vector[j] == Votes(hashes[..t], j)
    {
      TestBit(hashes[t], i);
      if And(hashes[t], Pow2(i)) != 0 {
        vector[i] := vector[i] + 1;
      } else {
        vector[i] := vector[i] - 1;
      }
    }
  }

  lemma {:induction false} FingerprintBelow(hashes: seq<nat>, n: nat)
    ensures Fingerprint(hashes, n) < Pow2(n)
  {
    if n > 0 {
      FingerprintBelow(hashes, n - 1);
    }
  }

  lemma {:induction false} FingerprintBit(hashes: seq<nat>, n: nat, i: nat)
    ensures Bit(Fingerprint(hashes, n), i) <==> i < n && Votes(hashes, i) > 0
  {
    hide Votes;
    if n == 0 {
      BitBelow(0, 0, i);
    } else {
      FingerprintBelow(hashes, n - 1);
      FingerprintBit(hashes, n - 1, i);
      SetBit(Fingerprint(hashes, n - 1), n - 1, i);
    }
  }

  lemma {:induction false} VotesAreMajority(hashes: seq<nat>, i: nat)
    ensures Votes(hashes, i) == 2 * Ayes(hashes, i) - |hashes|
  {
    if hashes != [] {
      VotesAreMajority(hashes[..|hashes| - 1], i);
    }
  }

  /** A bit of the fingerprint is set exactly if more than half of the tokens have it, and nothing else is. */
  lemma {:induction false} FingerprintIsMajority(hashes: seq<nat>, n: nat, i: nat)
    ensures Fingerprint(hashes, n) < Pow2(n)
    ensures Bit(Fingerprint(hashes, n), i) <==> i < n && 2 * Ayes(hashes, i) > |hashes|
  {
    FingerprintBelow(hashes, n);
    FingerprintBit(hashes, n, i);
    VotesAreMajority(hashes, i);
  }

  lemma {:induction false} VotesAround(a: seq<nat>, x: nat, b: seq<nat>, i: nat)
    ensures Votes(a + [x] + b, i) == Votes(a + b, i) + if Bit(x, i) then 1 else -1
  {
    hide Bit;
    if b == [] {
      assert a + [x] + b == a + [x] && (a + [x])[..|a|] == a && a + b == a;
    } else {
      var b' := b[..|b| - 1];
      VotesAround(a, x, b', i);
      var s, t := a + [x] + b, a + b;
      assert s[..|s| - 1] == a + [x] + b' && t[..|t| - 1] == a + b';
    }
  }

  lemma {:induction false} RemoveBoth(a: seq<nat>, x: nat, b: seq<nat>, c: seq<nat>)
    requires multiset(a + [x]) == multiset(b + [x] + c)
    ensures multiset(a) == multiset(b + c)
  {
    assert multiset(a) == multiset(a + [x]) - multiset{x};
    assert multiset(b + c) == multiset(b + [x] + c) - multiset{x};
  }

  lemma {:induction false} VotesPermute(a: seq<nat>, b: seq<nat>, i: nat)
    requires multiset(a) == multiset(b)
    ensures Votes(a, i) == Votes(b, i)
  {
    hide Bit;
    assert |a| == |multiset(a)| == |b|;
    if a != [] {
      var x, a' := a[|a| - 1], a[..|a| - 1];
      assert a == a' + [x];
      assert x in multiset(b);
      var k :| 0 <= k < |b| && b[k] == x;
      var b' := b[..k] + b[k + 1..];
      assert b == b[..k] + [x] + b[k + 1..];
      RemoveBoth(a', x, b[..k], b[k + 1..]);
      VotesPermute(a', b', i);
      VotesAround(b[..k], x, b[k + 1..], i);
    }
  }

  /** The fingerprint depends only on the multiset of tokens, not on their order. */
  lemma {:induction false} FingerprintPermute(a: seq<nat>, b: seq<nat>, n: nat)
    requires multiset(a) == multiset(b)
    ensures Fingerprint(a, n) == Fingerprint(b, n)
  {
    if n > 0 {
      FingerprintPermute(a, b, n - 1);
      VotesPermute(a, b, n - 1);
    }
  }

  // ----- the deduplicator -----

  function Similarity(a: nat, b: nat): real {
    1.0 - Distance(a, b) as real / HASH_BITS as real
  }

  ghost predicate Resembles(threshold: real, fp: nat, keys: seq<nat>) {
    exists k :: 0 <= k < |keys| && Similarity(fp, keys[k]) >= threshold
  }

  /** The stored fingerprints in order of arrival, and the counters. */
  datatype Store = Store(keys: seq<nat>, seen: nat, duplicates: nat)

  ghost function Checked(threshold: real, st: Store, fp: nat): Store {
    if Resembles(threshold, fp, st.keys) then Store(st.keys, st.seen + 1, st.duplicates + 1)
    else Store(if fp in st.keys then st.keys else st.keys + [fp], st.seen + 1, st.duplicates)
  }

  class SimilarityDeduplicator {
    const threshold: real
    /** Lower-casing, splitting and hashing the tokens. */
    const digest: string -> seq<nat>
    var keys: seq<nat>
    var samples: map<nat, string>
    var seen: nat
    var duplicates: nat

    constructor (threshold: real, digest: string -> seq<nat>)
      ensures this.threshold == threshold && this.digest == digest && Snapshot() == Store([], 0, 0)
    {
      this.threshold := threshold;
      this.digest := digest;
      keys, samples, seen, duplicates := [], map[], 0, 0;
    }

    function Snapshot(): Store
      reads this
    {
      Store(keys, seen, duplicates)
    }

    method IsDuplicate(content: string) returns (dup: bool)
      modifies this
      ensures var fp := Fingerprint(digest(content), HASH_BITS);
              && dup == Resembles(threshold, fp, old(keys))
              && Snapshot() == Checked(threshold, old(Snapshot()), fp)
              && (!dup ==> samples == old(samples)[fp := content[..Min(100, |content|)]])
              && (dup ==> samples == old(samples))
    {
      seen := seen + 1;
      var fp := ComputeSimhash(digest(content), HASH_BITS);
      for k := 0 to |keys|
        invariant keys == old(keys) && samples == old(samples)
        invariant forall j :: 0 <= j < k ==> Similarity(fp, keys[j]) < threshold
        invariant seen == old(seen) + 1 && duplicates == old(duplicates)
      {
        var distance := HammingDistance(fp, keys[k]);
        if 1.0 - distance as real / HASH_BITS as real >= threshold {
          duplicates := duplicates + 1;
          return true;
        }
      }
      samples := samples[fp := content[..Min(100, |content|)]];
      if fp !in keys {
        keys := keys + [fp];
      }
      return false;
    }
  }

  ghost function Run(threshold: real, fps: seq<nat>): Store {
    if fps == [] then Store([], 0, 0)
    else Checked(threshold, Run(threshold, fps[..|fps| - 1]), fps[|fps| - 1])
  }

  lemma {:induction false} SimilaritySymmetric(x: nat, y: nat)
    ensures Similarity(x, y) == Similarity(y, x)
  {
    XorSymmetric(x, y);
  }

  ghost predicate Apart(threshold: real, keys: seq<nat>) {
    forall i, j :: 0 <= i < |keys| && 0 <= j < |keys| && i != j ==>
      keys[i] != keys[j] && Similarity(keys[i], keys[j]) < threshold
  }

  /** Whatever the threshold: any two stored fingerprints are different and less similar than it. */
  lemma {:induction false} StoredApart(threshold: real, fps: seq<nat>)
    ensures Apart(threshold, Run(threshold, fps).keys)
  {
    hide Similarity;
    if fps != [] {
      var before, fp := Run(threshold, fps[..|fps| - 1]), fps[|fps| - 1];
      StoredApart(threshold, fps[..|fps| - 1]);
      forall i | 0 <= i < |before.keys| ensures Similarity(fp, before.keys[i]) == Similarity(before.keys[i], fp) {
        SimilaritySymmetric(fp, before.keys[i]);
      }
    }
  }

  lemma {:induction false} SelfSimilar(x: nat)
    ensures Similarity(x, x) == 1.0
  {
    XorZero(x);
  }

  ghost predicate Accounted(st: Store) {
    st.seen == st.duplicates + |st.keys|
  }

  lemma {:induction false} RunAccounted(threshold: real, fps: seq<nat>)
    requires threshold <= 1.0
    ensures Accounted(Run(threshold, fps))
  {
    hide Similarity;
    if fps != [] {
      RunAccounted(threshold, fps[..|fps| - 1]);
      SelfSimilar(fps[|fps| - 1]);
    }
  }

  /** "Seen is duplicates plus stored" holds after every call of every run exactly for thresholds up to 1. */
  lemma {:induction false} AccountedIff(threshold: real)
    ensures (forall fps :: Accounted(Run(threshold, fps))) <==> threshold <= 1.0
  {
    if threshold <= 1.0 {
      forall fps ensures Accounted(Run(threshold, fps)) {
        RunAccounted(threshold, fps);
      }
    } else {
      var fps := [0, 0];
      assert fps[..1] == [0] && [0][..0] == [];
      SelfSimilar(0);
      hide Similarity;
      assert Run(threshold, [0]) == Store([0], 1, 0);
      assert !Resembles(threshold, 0, [0]);
      assert Run(threshold, fps) == Store([0], 2, 0);
    }
  }

  // ----- what similar means -----

  /** Two 64-bit fingerprints are similar enough exactly if they differ in at most that share of the 64 positions. */
  lemma {:induction false} SimilarIff(a: nat, b: nat, threshold: real)
    requires a < Pow2(64) && b < Pow2(64)
    ensures Similarity(a, b) >= threshold <==> Differing(a, b, 64) as real <= 64.0 * (1.0 - threshold)
  {
    hide Differing, Pow2;
    DistanceIsHamming(a, b, 64);
    var n := Differing(a, b, 64) as real;
    assert Similarity(a, b) == 1.0 - n / 64.0;
  }

  lemma {:induction false} KeysWereSeen(threshold: real, fps: seq<nat>, k: nat)
    requires k < |Run(threshold, fps).keys|
    ensures Run(threshold, fps).keys[k] in fps
  {
    hide Similarity, Resembles;
    if fps != [] {
      var n := |fps| - 1;
      var before := Run(threshold, fps[..n]).keys;
      if k < |before| {
        KeysWereSeen(threshold, fps[..n], k);
      }
    }
  }

  /**
   In every run over 64-bit fingerprints, the next one is counted as a duplicate exactly if it
   differs from some stored one in at most that share of the 64 positions; otherwise it is
   stored behind the others, unless it is there already.
   */
  lemma {:induction false} DuplicateIff(threshold: real, fps: seq<nat>, fp: nat)
    requires fp < Pow2(64) && forall x :: x in fps ==> x < Pow2(64)
    ensures var st, st' := Run(threshold, fps), Run(threshold, fps + [fp]);
            var near := exists k :: 0 <= k < |st.keys| && Differing(fp, st.keys[k], 64) as real <= 64.0 * (1.0 - threshold);
            && st'.seen == st.seen + 1
            && st'.duplicates == st.duplicates + (if near then 1 else 0)
            && st'.keys == if near || fp in st.keys then st.keys else st.keys + [fp]
  {
    hide Similarity, Differing, Pow2;
    assert (fps + [fp])[..|fps|] == fps;
    var keys := Run(threshold, fps).keys;
    forall k | 0 <= k < |keys|
      ensures Similarity(fp, keys[k]) >= threshold <==> Differing(fp, keys[k], 64) as real <= 64.0 * (1.0 - threshold)
    {
      KeysWereSeen(threshold, fps, k);
      SimilarIff(fp, keys[k], threshold);
    }
  }
}
