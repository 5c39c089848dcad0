/** The Bloom filter: bits in Redis, positions by double hashing, the two digests uninterpreted. */
module Bloom {

  type Positive = n: nat | n > 0 witness 1

  datatype Config = Config(size: Positive, hashCount: nat, h1: string -> nat, h2: string -> nat)

  function Position(cfg: Config, item: string, i: nat): nat {
    (cfg.h1(item) + i * cfg.h2(item)) % cfg.size
  }

  function Positions(cfg: Config, item: string, n: nat): set<nat> {
    if n == 0 then {} else Positions(cfg, item, n - 1) + {Position(cfg, item, n - 1)}
  }

  function AllPositions(cfg: Config, item: string): set<nat> {
    Positions(cfg, item, cfg.hashCount)
  }

  class RedisBloomFilter {
    const cfg: Config
    var bits: set<nat>

    constructor (cfg: Config)
      ensures this.cfg == cfg && bits == {}
    {
      this.cfg := cfg;
      bits := {};
    }

    method GetHashPositions(item: string) returns (positions: seq<nat>)
      ensures |positions| == cfg.hashCount
      ensures forall p :: p in positions <==> p in AllPositions(cfg, item)
    {
      positions := [];
      for i := 0 to cfg.hashCount
        invariant |positions| == i
        invariant forall p :: p in positions <==> p in Positions(cfg, item, i)
      {
        var pos := (cfg.h1(item) + i * cfg.h2(item)) % cfg.size;
        assert pos == Position(cfg, item, i);
        positions := positions + [pos];
      }
    }

    /** All bits of the item are set. */
    method Contains(item: string) returns (present: bool)
      ensures present <==> AllPositions(cfg, item) <= bits
    {
      var positions := GetHashPositions(item);
      present := true;
      for k := 0 to |positions|
        invariant present <==> forall j :: 0 <= j < k ==> positions[j] in bits
      {
        present := present && positions[k] in bits;
      }
    }

    method Add(item: string) returns (wasPresent: bool)
      modifies this
      ensures wasPresent <==> AllPositions(cfg, item) <= old(bits)
      ensures bits == old(bits) + AllPositions(cfg, item)
    {
      wasPresent := Contains(item);
      var positions := GetHashPositions(item);
      for k := 0 to |positions|
        invariant bits == old(bits) + (set j | 0 <= j < k :: positions[j])
      {
        bits := bits + {positions[k]};
      }
    }
  }

  /** The bits after adding these items to an empty filter. */
  function Filled(cfg: Config, items: seq<string>): set<nat> {
    if items == [] then {} else Filled(cfg, items[..|items| - 1]) + AllPositions(cfg, items[|items| - 1])
  }

  lemma {:induction false} FilledMore(cfg: Config, items: seq<string>, x: string)
    ensures Filled(cfg, items + [x]) == Filled(cfg, items) + AllPositions(cfg, x)
  {
    hide AllPositions;
    assert (items + [x])[..|items|] == items;
  }

  lemma {:induction false} FilledCovers(cfg: Config, items: seq<string>, k: nat)
    requires k < |items|
    ensures AllPositions(cfg, items[k]) <= Filled(cfg, items)
  {
    hide AllPositions;
    if k < |items| - 1 {
      FilledCovers(cfg, items[..|items| - 1], k);
    }
  }

  lemma {:induction false} FilledFrom(cfg: Config, items: seq<string>, p: nat)
    ensures p in Filled(cfg, items) <==> exists k :: 0 <= k < |items| && p in AllPositions(cfg, items[k])
  {
    hide AllPositions;
    if items != [] {
      FilledFrom(cfg, items[..|items| - 1], p);
      if p in AllPositions(cfg, items[|items| - 1]) {
        assert p in Filled(cfg, items);
      }
    }
  }

  /** An item that was added is always reported, and one that is reported has every bit from some added item. */
  lemma {:induction false} NoFalseNegatives(cfg: Config, items: seq<string>, x: string)
    ensures x in items ==> AllPositions(cfg, x) <= Filled(cfg, items)
    ensures AllPositions(cfg, x) <= Filled(cfg, items) <==>
              forall p :: p in AllPositions(cfg, x) ==>
                exists k :: 0 <= k < |items| && p in AllPositions(cfg, items[k])
  {
    hide AllPositions, Filled;
    if x in items {
      var k :| 0 <= k < |items| && items[k] == x;
      FilledCovers(cfg, items, k);
    }
    forall p ensures p in Filled(cfg, items) <==> exists k :: 0 <= k < |items| && p in AllPositions(cfg, items[k]) {
      FilledFrom(cfg, items, p);
    }
  }

  // ----- double hashing -----

  lemma {:induction false} SameRemainder(a: int, b: int, m: int)
    requires m > 0
    ensures a % m == b % m <==> (b - a) % m == 0
  {
    var p, q := a / m, b / m;
    assert a == m * p + a % m && b == m * q + b % m;
    Distribute(m, q, p);
    RemainderOf(q - p, b % m - a % m, m);
  }

  lemma {:induction false} LargeMultiple(m: int, k: int)
    requires m > 0
    ensures k >= 1 ==> m * k >= m
    ensures k <= -1 ==> m * k <= -m
    ensures k == 0 ==> m * k == 0
  {
    if k >= 1 {
      assert m * k >= m * 1;
    } else if k <= -1 {
      assert m * k <= m * -1;
    }
  }

  /** A number between minus and plus the modulus, behind a multiple of it. */
  lemma {:induction false} RemainderOf(k: int, r: int, m: int)
    requires m > 0 && -m < r < m
    ensures (m * k + r) % m == 0 <==> r == 0
  {
    var x := m * k + r;
    var q, rem := x / m, x % m;
    assert x == m * q + rem;
    Distribute(m, q, k);
    if rem == 0 {
      LargeMultiple(m, q - k);
    }
    if r == 0 {
      Distribute(m, k, q);
      LargeMultiple(m, k - q);
    }
  }

  lemma {:induction false} Distribute(m: int, q: int, k: int)
    ensures m * q - m * k == m * (q - k)
  {
  }

  /** How far one remainder is from that of a number `h` further on. */
  lemma {:induction false} RemainderStep(x: int, h: int, m: int)
    requires m > 0
    ensures ((x + h) % m - x % m - h) % m == 0
  {
    var z := x + h;
    var p, q := x / m, z / m;
    assert x == m * p + x % m;
    assert z == m * q + z % m;
    Distribute(m, p, q);
    RemainderOf(p - q, 0, m);
  }

  lemma {:induction false} ProbeSpan(a: int, h: int, i: int, j: int)
    ensures (a + j * h) - (a + i * h) == (j - i) * h
    ensures a + (i + 1) * h == a + i * h + h && a + 0 * h == a
  {
  }

  /**
   The probes of an item start at its first digest and go on by its second, around the filter;
   and two of them fall on one bit exactly if the filter's size divides that many steps.
   */
  lemma {:induction false} ProbesStep(cfg: Config, item: string, i: nat, j: nat)
    ensures Position(cfg, item, i) < cfg.size && Position(cfg, item, 0) == cfg.h1(item) % cfg.size
    ensures (Position(cfg, item, i + 1) - Position(cfg, item, i) - cfg.h2(item)) % cfg.size == 0
    ensures Position(cfg, item, i) == Position(cfg, item, j) <==> ((j - i) * cfg.h2(item)) % cfg.size == 0
  {
    var m, a, h := cfg.size, cfg.h1(item), cfg.h2(item);
    ProbeSpan(a, h, i, j);
    SameRemainder(a + i * h, a + j * h, m);
    RemainderStep(a + i * h, h, m);
  }

  /** The bits of an item are those of its first `hashCount` probes. */
  lemma {:induction false} BitsAreProbes(cfg: Config, item: string, p: nat)
    ensures p in AllPositions(cfg, item) <==> exists i :: 0 <= i < cfg.hashCount && Position(cfg, item, i) == p
  {
    PositionsAre(cfg, item, cfg.hashCount, p);
  }

  lemma {:induction false} PositionsAre(cfg: Config, item: string, n: nat, p: nat)
    ensures p in Positions(cfg, item, n) <==> exists i :: 0 <= i < n && Position(cfg, item, i) == p
  {
    hide Position;
    if n > 0 {
      PositionsAre(cfg, item, n - 1, p);
    }
  }
}
