/** The chunker of the retrieval engine, which looks for the end of a sentence. */
module SentenceChunker {
  import opened Common
  import opened PyText

  const PUNCTUATION: seq<string> := [". ", "! ", "? ", "\n\n", "\n"]

  /** The arguments of a call, with `chunk_size or ...` and `chunk_overlap or ...` already resolved. */
  datatype Job = Job(text: string, size: int, overlap: int, blank: char -> bool)

  /** Where the `k`-th and later kinds of punctuation would end the window, or `end` if none occurs. */
  function BreakFrom(t: string, start: int, end: int, k: nat): int
    requires k <= |PUNCTUATION|
    decreases |PUNCTUATION| - k
  {
    if k == |PUNCTUATION| then end
    else
      var p := RFind(t, PUNCTUATION[k], start, end);
      if p != -1 then p + |PUNCTUATION[k]| else BreakFrom(t, start, end, k + 1)
  }

  function ChosenEnd(job: Job, start: int): int {
    var end := start + job.size;
    if end < |job.text| then BreakFrom(job.text, start, end, 0) else end
  }

  function NextStart(job: Job, start: int): int {
    ChosenEnd(job, start) - job.overlap
  }

  /** `start` after `k` rounds of the loop; once the loop has ended it does not move. */
  function Orbit(job: Job, k: nat): int {
    if k == 0 then 0
    else
      var s := Orbit(job, k - 1);
      if s >= |job.text| then s else NextStart(job, s)
  }

  function Piece(job: Job, start: int): string {
    Strip(job.blank, Slice(job.text, start, ChosenEnd(job, start)))
  }

  /** The chunks collected in the first `k` rounds. */
  function Collected(job: Job, k: nat): seq<string> {
    if k == 0 then []
    else
      var s, before := Orbit(job, k - 1), Collected(job, k - 1);
      if s >= |job.text| || Piece(job, s) == "" then before else before + [Piece(job, s)]
  }

  /** A stretch of the text, `from` included and `to` not. */
  datatype Span = Span(from: nat, to: nat)

  /** Which stretch of the text the chunk of a round is. */
  function SpanOf(job: Job, start: int): Span {
    var t := job.text;
    var lo, hi := Bound(start, |t|), Bound(ChosenEnd(job, start), |t|);
    if lo < hi then
      var a := SkipBlank(job.blank, t[lo..hi], 0);
      Span(lo + a, lo + DropBlank(job.blank, t[lo..hi], a, hi - lo))
    else Span(0, 0)
  }

  /** Position `i` of the text lies in the chunk of one of the first `k` rounds. */
  ghost predicate Covered(job: Job, k: nat, i: nat) {
    exists r :: 0 <= r < k && CoveredBy(job, r, i)
  }

  ghost predicate CoveredBy(job: Job, r: nat, i: nat) {
    Orbit(job, r) < |job.text| && SpanOf(job, Orbit(job, r)).from <= i < SpanOf(job, Orbit(job, r)).to
  }

  ghost predicate Halts(job: Job) {
    exists k :: Orbit(job, k) >= |job.text|
  }

  method ChooseEnd(job: Job, start: int) returns (end: int)
    ensures end == ChosenEnd(job, start)
  {
    hide RFind;
    end := start + job.size;
    if end < |job.text| {
      var limit := end;
      for k := 0 to |PUNCTUATION|
        invariant end == limit
        invariant BreakFrom(job.text, start, limit, 0) == BreakFrom(job.text, start, limit, k)
      {
        var lastPunct := RFind(job.text, PUNCTUATION[k], start, end);
        if lastPunct != -1 {
          end := lastPunct + |PUNCTUATION[k]|;
          return;
        }
      }
    }
  }

  /** The loop, for every call that comes back; `rounds` is any number of rounds that suffices. */
  method ChunkText(job: Job, ghost rounds: nat) returns (chunks: seq<string>)
    requires |job.text| <= job.size || Orbit(job, rounds) >= |job.text|
    ensures chunks == if |job.text| <= job.size then [job.text] else Collected(job, rounds)
  {
    hide Orbit, Collected, ChosenEnd, Strip, Slice;
    if |job.text| <= job.size {
      return [job.text];
    }
    FirstRound(job);
    chunks := [];
    var start := 0;
    ghost var k := 0;
    while start < |job.text|
      invariant k <= rounds && start == Orbit(job, k) && chunks == Collected(job, k)
      decreases rounds - k
    {
      assert k != rounds;
      var end := ChooseEnd(job, start);
      var chunk := Strip(job.blank, Slice(job.text, start, end));
      Round(job, k);
      if chunk != "" {
        chunks := chunks + [chunk];
      }
      start := end - job.overlap;
      k := k + 1;
    }
    Settled(job, k, rounds);
  }

  lemma {:induction false} FirstRound(job: Job)
    ensures Orbit(job, 0) == 0 && Collected(job, 0) == []
  {
  }

  lemma {:induction false} Round(job: Job, k: nat)
    requires Orbit(job, k) < |job.text|
    ensures Orbit(job, k + 1) == ChosenEnd(job, Orbit(job, k)) - job.overlap
    ensures var c := Strip(job.blank, Slice(job.text, Orbit(job, k), ChosenEnd(job, Orbit(job, k))));
            Collected(job, k + 1) == if c == "" then Collected(job, k) else Collected(job, k) + [c]
  {
    hide ChosenEnd, Strip, Slice;
  }

  lemma {:induction false} Settled(job: Job, k: nat, m: nat)
    requires k <= m && Orbit(job, k) >= |job.text|
    ensures Orbit(job, m) == Orbit(job, k) && Collected(job, m) == Collected(job, k)
  {
    hide NextStart, Piece;
    if k < m {
      Settled(job, k, m - 1);
    }
  }

  // ----- chunks as stretches of the text -----

  lemma {:induction false} SliceOfSlice(t: string, s: nat, e: nat, a: nat, b: nat)
    requires s <= e <= |t| && a <= b <= e - s
    ensures t[s..e][a..b] == t[s + a..s + b]
  {
    var w := t[s..e];
    assert forall i :: 0 <= i < b - a ==> w[a..b][i] == w[a + i] == t[s + a + i];
  }

  /** The chunk of a round is that stretch of the text. */
  lemma {:induction false} PieceIsSpan(job: Job, s: int)
    ensures var sp := SpanOf(job, s); sp.from <= sp.to <= |job.text| && Piece(job, s) == job.text[sp.from..sp.to]
  {
    hide ChosenEnd;
    var t := job.text;
    var lo, hi := Bound(s, |t|), Bound(ChosenEnd(job, s), |t|);
    if lo < hi {
      var a := SkipBlank(job.blank, t[lo..hi], 0);
      SliceOfSlice(t, lo, hi, a, DropBlank(job.blank, t[lo..hi], a, hi - lo));
    }
  }

  /** The stretches of the first `k` rounds that are not empty: one for every chunk. */
  function Spans(job: Job, k: nat): seq<Span> {
    if k == 0 then []
    else
      var s, before := Orbit(job, k - 1), Spans(job, k - 1);
      if s >= |job.text| || Piece(job, s) == "" then before else before + [SpanOf(job, s)]
  }

  /** The chunks are the stretches, and a position is covered exactly if it lies in one of them. */
  lemma {:induction false} ChunksAreSpans(job: Job, k: nat, i: nat)
    ensures |Collected(job, k)| == |Spans(job, k)|
    ensures forall j :: 0 <= j < |Spans(job, k)| ==>
              && Spans(job, k)[j].from <= Spans(job, k)[j].to <= |job.text|
              && Collected(job, k)[j] == job.text[Spans(job, k)[j].from..Spans(job, k)[j].to]
    ensures Covered(job, k, i) <==> InSpans(Spans(job, k), i)
  {
    hide SpanOf, Piece, Orbit, InSpans;
    if k == 0 {
      assert !InSpans([], i) by { NotInNone(i); }
    } else {
      ChunksAreSpans(job, k - 1, i);
      var s := Orbit(job, k - 1);
      PieceIsSpan(job, s);
      assert Covered(job, k, i) <==> Covered(job, k - 1, i) || CoveredBy(job, k - 1, i);
      InSpansMore(Spans(job, k - 1), SpanOf(job, s), i);
    }
  }

  ghost predicate InSpans(spans: seq<Span>, i: nat) {
    exists j :: 0 <= j < |spans| && spans[j].from <= i < spans[j].to
  }

  lemma {:induction false} NotInNone(i: nat)
    ensures !InSpans([], i)
  {
  }

  lemma {:induction false} InSpansMore(spans: seq<Span>, sp: Span, i: nat)
    ensures InSpans(spans + [sp], i) <==> InSpans(spans, i) || sp.from <= i < sp.to
  {
    var all := spans + [sp];
    assert forall j :: 0 <= j < |spans| ==> all[j] == spans[j];
    assert all[|spans|] == sp;
  }

  /** Every non-blank position in the window of a round lies in that round's chunk, and no position outside the window does. */
  lemma {:induction false} SpanCovers(job: Job, s: int, i: nat)
    requires i < |job.text|
    ensures var sp, lo, hi := SpanOf(job, s), Bound(s, |job.text|), Bound(ChosenEnd(job, s), |job.text|);
            && (lo <= i < hi && !job.blank(job.text[i]) ==> sp.from <= i < sp.to)
            && (sp.from <= i < sp.to ==> lo <= i < hi)
  {
    hide ChosenEnd;
    var t := job.text;
    var lo, hi := Bound(s, |t|), Bound(ChosenEnd(job, s), |t|);
    if lo <= i < hi && !job.blank(t[i]) {
      assert t[lo..hi][i - lo] == t[i];
    }
  }

  // ----- rounds that move forward -----

  predicate Advances(job: Job, s: int) {
    s + job.overlap < ChosenEnd(job, s)
  }

  /** From round `a` on, every chosen end lies more than the overlap behind the start it was chosen for. */
  ghost predicate AdvancesFrom(job: Job, a: nat) {
    forall k :: a <= k && Orbit(job, k) < |job.text| ==> Advances(job, Orbit(job, k))
  }

  /** What a caller can check of the text: wherever a window is placed, its last sentence end lies behind the overlap. */
  ghost predicate Roomy(job: Job) {
    forall s: nat :: s + job.size < |job.text| ==> Advances(job, s)
  }

  lemma {:induction false} RoomyAdvances(job: Job)
    requires 0 <= job.overlap < job.size && Roomy(job)
    ensures AdvancesFrom(job, 0)
  {
    hide ChosenEnd;
    forall k: nat | Orbit(job, k) < |job.text| ensures Advances(job, Orbit(job, k)) {
      RoomyRound(job, k);
    }
  }

  lemma {:induction false} RoomyRound(job: Job, k: nat)
    requires 0 <= job.overlap < job.size && Roomy(job)
    ensures Orbit(job, k) >= 0
    ensures Orbit(job, k) < |job.text| ==> Advances(job, Orbit(job, k))
  {
    hide BreakFrom;
    if k > 0 {
      RoomyRound(job, k - 1);
    }
  }

  lemma {:induction false} AdvanceBy(job: Job, a: nat, m: nat)
    requires AdvancesFrom(job, a)
    ensures Orbit(job, a + m) >= Min(Orbit(job, a) + m, |job.text|)
    ensures Orbit(job, a + m) >= Orbit(job, a) || Orbit(job, a + m) >= |job.text|
  {
    hide ChosenEnd;
    if m > 0 {
      AdvanceBy(job, a, m - 1);
    }
  }

  /** From round `a` on nothing non-blank is passed over. */
  lemma {:induction false} CoverFrom(job: Job, a: nat, m: nat, i: nat)
    requires AdvancesFrom(job, a) && 0 <= job.overlap
    requires 0 <= Orbit(job, a) <= i < |job.text| && i < Orbit(job, a + m) && !job.blank(job.text[i])
    ensures Covered(job, a + m, i)
  {
    hide ChosenEnd, SpanOf;
    var k := a + m - 1;
    var s := Orbit(job, k);
    AdvanceBy(job, a, m - 1);
    if i < s {
      CoverFrom(job, a, m - 1, i);
    } else {
      SpanCovers(job, s, i);
      assert CoveredBy(job, k, i);
    }
  }

  /**
   If every chosen end is more than the overlap past its start, the loop ends within as many
   rounds as the text has characters, and every non-blank character lies in some chunk.
   */
  lemma {:induction false} AdvancingRunCovers(job: Job, i: nat)
    requires AdvancesFrom(job, 0) && 0 <= job.overlap
    ensures Halts(job) && Orbit(job, |job.text|) >= |job.text|
    ensures i < |job.text| && !job.blank(job.text[i]) ==> Covered(job, |job.text|, i)
  {
    hide ChosenEnd, Covered;
    var n := |job.text|;
    AdvanceBy(job, 0, n);
    if i < n && !job.blank(job.text[i]) {
      CoverFrom(job, 0, n, i);
    }
  }

  // ----- rounds that do not -----

  lemma {:induction false} BreakRange(t: string, start: int, end: int, k: nat)
    requires k <= |PUNCTUATION|
    ensures BreakFrom(t, start, end, k) == end || 1 <= BreakFrom(t, start, end, k) <= |t|
    ensures 0 <= start && 0 <= end ==> BreakFrom(t, start, end, k) <= end
    decreases |PUNCTUATION| - k
  {
    if k < |PUNCTUATION| {
      assert 1 <= |PUNCTUATION[k]| <= 2;
      BreakRange(t, start, end, k + 1);
    }
  }

  /** A round either takes the whole window or stops behind some character of the text. */
  lemma {:induction false} NextRange(job: Job, s: int)
    ensures NextStart(job, s) == s + job.size - job.overlap
         || 1 - job.overlap <= NextStart(job, s) <= |job.text| - job.overlap
  {
    hide BreakFrom;
    BreakRange(job.text, s, s + job.size, 0);
  }

  /** With an overlap as large as the chunk the loop never ends. */
  lemma {:induction false} LargeOverlapNeverHalts(job: Job, k: nat)
    requires 0 < job.size <= job.overlap && job.size < |job.text|
    ensures Orbit(job, k) < |job.text|
  {
    hide NextStart;
    if k > 0 {
      LargeOverlapNeverHalts(job, k - 1);
      NextRange(job, Orbit(job, k - 1));
    }
  }

  lemma {:induction false} OrbitRange(job: Job, k: nat)
    requires 0 <= job.overlap < job.size
    ensures -job.overlap <= Orbit(job, k)
  {
    hide NextStart;
    if k > 0 {
      OrbitRange(job, k - 1);
      NextRange(job, Orbit(job, k - 1));
    }
  }

  ghost function Values(job: Job, k: nat): (v: set<int>) {
    if k == 0 then {} else Values(job, k - 1) + {Orbit(job, k - 1)}
  }

  lemma {:induction false} ValueFrom(job: Job, k: nat, x: int) returns (i: nat)
    requires x in Values(job, k)
    ensures i < k && Orbit(job, i) == x
  {
    hide Orbit;
    if x == Orbit(job, k - 1) {
      i := k - 1;
    } else {
      i := ValueFrom(job, k - 1, x);
    }
  }

  ghost function Interval(lo: int, hi: int): (s: set<int>)
    ensures forall x :: x in s <==> lo <= x < hi
    ensures |s| == Max(0, hi - lo)
    decreases hi - lo
  {
    if hi <= lo then {} else Interval(lo, hi - 1) + {hi - 1}
  }

  /** Either some start has come back within `k` rounds, or the rounds have seen `k` values. */
  lemma {:induction false} RepeatOrFresh(job: Job, k: nat) returns (i: nat, j: nat)
    ensures |Values(job, k)| == k || (i < j < k && Orbit(job, i) == Orbit(job, j))
  {
    hide Orbit;
    i, j := 0, 0;
    if k > 0 {
      i, j := RepeatOrFresh(job, k - 1);
      if |Values(job, k - 1)| == k - 1 && Orbit(job, k - 1) in Values(job, k - 1) {
        i := ValueFrom(job, k - 1, Orbit(job, k - 1));
        j := k - 1;
      }
    }
  }

  lemma {:induction false} Repeats(job: Job, i: nat, j: nat, m: nat)
    requires i < j && Orbit(job, i) == Orbit(job, j)
    ensures Orbit(job, i + m) == Orbit(job, j + m)
  {
    hide NextStart;
    if m > 0 {
      Repeats(job, i, j, m - 1);
    }
  }

  lemma {:induction false} RepeatNeverHalts(job: Job, i: nat, j: nat, m: nat)
    requires i < j && Orbit(job, i) == Orbit(job, j) < |job.text|
    ensures Orbit(job, m) < |job.text|
    decreases m
  {
    hide Orbit;
    if m <= j {
      if Orbit(job, m) >= |job.text| {
        Settled(job, m, j);
      }
    } else {
      Repeats(job, i, j, m - j);
      RepeatNeverHalts(job, i, j, i + (m - j));
    }
  }

  lemma {:induction false} ValuesRange(job: Job, m: nat)
    requires 0 <= job.overlap < job.size && Orbit(job, m) < |job.text|
    ensures Values(job, m + 1) <= Interval(-job.overlap, |job.text|)
  {
    hide Orbit, Values;
    var v := Values(job, m + 1);
    forall x: int ensures x in v ==> -job.overlap <= x < |job.text| {
      if x in v {
        var k := ValueFrom(job, m + 1, x);
        OrbitRange(job, k);
        if Orbit(job, k) >= |job.text| {
          Settled(job, k, m);
        }
      }
    }
  }

  /** Termination is decided by the first `|text| + overlap` rounds. */
  lemma {:induction false} HaltsIff(job: Job)
    requires 0 <= job.overlap < job.size
    ensures Halts(job) <==> Orbit(job, |job.text| + job.overlap) >= |job.text|
  {
    hide Orbit, Values;
    var n := |job.text|;
    var N: nat := n + job.overlap;
    if Orbit(job, N) < n {
      ValuesRange(job, N);
      SubsetSize(Values(job, N + 1), Interval(-job.overlap, n));
      var i, j := RepeatOrFresh(job, N + 1);
      if Orbit(job, i) >= n {
        Settled(job, i, N);
      }
      forall m: nat ensures Orbit(job, m) < n {
        RepeatNeverHalts(job, i, j, m);
      }
    }
  }

  lemma {:induction false} SubsetSize(a: set<int>, b: set<int>)
    requires a <= b
    ensures |a| <= |b|
  {
    assert b == a + (b - a);
  }

  // ----- exactly when the loop ends, and what it covers -----

  /** A break is found inside the window, and it is the end of some punctuation. */
  lemma {:induction false} BreakInside(t: string, start: nat, end: nat, k: nat) returns (j: nat, p: nat)
    requires k <= |PUNCTUATION| && start <= end <= |t|
    ensures BreakFrom(t, start, end, k) != end ==>
              && j < |PUNCTUATION| && At(t, PUNCTUATION[j], p)
              && start < BreakFrom(t, start, end, k) == p + |PUNCTUATION[j]|
    decreases |PUNCTUATION| - k
  {
    hide At;
    j, p := k, 0;
    if k < |PUNCTUATION| {
      assert 1 <= |PUNCTUATION[k]| <= 2;
      var q := RFind(t, PUNCTUATION[k], start, end);
      if q == -1 {
        j, p := BreakInside(t, start, end, k + 1);
      } else {
        p := q;
      }
    }
  }

  /** Moving the window back, but not past its break, does not move the break forward. */
  lemma {:induction false} BreakMovesBack(t: string, s: nat, end: nat, s': nat, end': nat, k: nat)
    requires k <= |PUNCTUATION| && s' <= s <= end && s' <= end' <= end <= |t|
    requires s < BreakFrom(t, s, end, k) < end'
    ensures BreakFrom(t, s', end', k) <= BreakFrom(t, s, end, k)
    decreases |PUNCTUATION| - k
  {
    hide At;
    if k < |PUNCTUATION| {
      var pat := PUNCTUATION[k];
      assert 1 <= |pat| <= 2;
      var p, p' := RFind(t, pat, s, end), RFind(t, pat, s', end');
      if p == -1 {
        if p' == -1 {
          BreakMovesBack(t, s, end, s', end', k + 1);
        } else {
          assert p' < s;
        }
      } else {
        assert At(t, pat, p);
        assert p' != -1;
        assert p' <= p;
      }
    }
  }

  /** A round from `s` that does not move forward. */
  predicate Stalls(job: Job, s: int) {
    0 <= s < |job.text| && !Advances(job, s)
  }

  /** It is followed by another one, whatever punctuation the next window finds, unless `start` falls below zero. */
  lemma {:induction false} StallsAgain(job: Job, s: int)
    requires 0 <= job.overlap < job.size && Stalls(job, s)
    ensures NextStart(job, s) >= 0 ==> Stalls(job, NextStart(job, s))
  {
    hide BreakFrom, At;
    var j, p := BreakInside(job.text, s, s + job.size, 0);
    var s' := NextStart(job, s);
    if s' >= 0 {
      BreakMovesBack(job.text, s, s + job.size, s', s' + job.size, 0);
    }
  }

  lemma {:induction false} OrbitNext(job: Job, k: nat)
    requires Orbit(job, k) < |job.text|
    ensures Orbit(job, k + 1) == NextStart(job, Orbit(job, k))
  {
    hide NextStart;
  }

  /** Moving the window forward, but not past its break, moves the break back only to where it was. */
  lemma {:induction false} BreakStays(t: string, s: nat, end: nat, s': nat, end': nat, k: nat)
    requires k <= |PUNCTUATION| && s <= s' <= end' <= |t| && s <= end <= |t|
    requires s' < BreakFrom(t, s', end', k) <= BreakFrom(t, s, end, k) <= end
    requires BreakFrom(t, s, end, k) < end'
    ensures BreakFrom(t, s', end', k) == BreakFrom(t, s, end, k)
    decreases |PUNCTUATION| - k
  {
    hide At;
    if k < |PUNCTUATION| {
      var pat := PUNCTUATION[k];
      assert 1 <= |pat| <= 2;
      var p, p' := RFind(t, pat, s, end), RFind(t, pat, s', end');
      if p == -1 && p' == -1 {
        BreakStays(t, s, end, s', end', k + 1);
      } else if p != -1 {
        assert At(t, pat, p);
        assert p >= s' ==> p' >= p;
      }
    }
  }

  /**
   After a round that moves forward, one that does not is a fixed point: the loop then stays
   there for ever.
   */
  lemma {:induction false} StallAfterAdvance(job: Job, s: int)
    requires 0 <= job.overlap < job.size && 0 <= s < |job.text|
    requires Advances(job, s) && Stalls(job, NextStart(job, s))
    ensures NextStart(job, NextStart(job, s)) == NextStart(job, s)
  {
    hide BreakFrom, At;
    var s' := NextStart(job, s);
    var j', p' := BreakInside(job.text, s', s' + job.size, 0);
    if s + job.size < |job.text| {
      BreakRange(job.text, s, s + job.size, 0);
      BreakStays(job.text, s, s + job.size, s', s' + job.size, 0);
    }
  }

  /**
   Round `a` is the last landing: before it every round either starts below zero or does not
   move forward, it comes first or after a start below zero, and from it on every round moves
   forward.
   */
  ghost predicate LandsAt(job: Job, a: nat) {
    && (forall k :: 0 <= k < a ==> Orbit(job, k) < 0 || Stalls(job, Orbit(job, k)))
    && (a == 0 || Orbit(job, a - 1) < 0) && 0 <= Orbit(job, a)
    && AdvancesFrom(job, a)
  }

  /** The last start below zero before round `m`. */
  lemma {:induction false} LastNegative(job: Job, m: nat) returns (a: nat)
    ensures a <= m && (a == 0 || Orbit(job, a - 1) < 0)
    ensures forall k :: a <= k < m ==> Orbit(job, k) >= 0
  {
    hide Orbit;
    if m == 0 || Orbit(job, m - 1) < 0 {
      a := m;
    } else {
      a := LastNegative(job, m - 1);
    }
  }

  lemma {:induction false} StallStays(job: Job, k: nat, m: nat)
    requires 0 <= job.overlap < job.size && Stalls(job, Orbit(job, k))
    requires forall j :: k < j <= k + m ==> Orbit(job, j) >= 0
    ensures Stalls(job, Orbit(job, k + m))
  {
    hide Orbit, NextStart, Stalls;
    if m > 0 {
      StallStays(job, k, m - 1);
      assert Orbit(job, k + m - 1) < |job.text| by { StallsInside(job, Orbit(job, k + m - 1)); }
      OrbitNext(job, k + m - 1);
      StallsAgain(job, Orbit(job, k + m - 1));
    }
  }

  lemma {:induction false} StallsInside(job: Job, s: int)
    requires Stalls(job, s)
    ensures 0 <= s < |job.text|
  {
  }

  /** In a loop that ends, a round that moves forward is followed by such rounds only. */
  lemma {:induction false} AdvanceStays(job: Job, k: nat, m: nat)
    requires 0 <= job.overlap < job.size && Halts(job)
    requires 0 <= Orbit(job, k) < |job.text| && Advances(job, Orbit(job, k))
    ensures 0 <= Orbit(job, k + m)
    ensures Orbit(job, k + m) < |job.text| ==> Advances(job, Orbit(job, k + m))
  {
    hide Orbit, ChosenEnd;
    if m > 0 {
      AdvanceStays(job, k, m - 1);
      var s := Orbit(job, k + m - 1);
      if s >= |job.text| {
        Settled(job, k + m - 1, k + m);
      } else {
        OrbitNext(job, k + m - 1);
        if Stalls(job, NextStart(job, s)) {
          StallAfterAdvance(job, s);
          RestsFor(job, k + m);
        }
      }
    }
  }

  /** A fixed point inside the text is the end of no loop. */
  lemma {:induction false} RestsFor(job: Job, k: nat)
    requires Orbit(job, k) < |job.text| && NextStart(job, Orbit(job, k)) == Orbit(job, k)
    ensures !Halts(job)
  {
    hide Orbit, NextStart;
    FixedPoint(job, k, 1);
    forall r: nat ensures Orbit(job, r) < |job.text| {
      RepeatNeverHalts(job, k, k + 1, r);
    }
  }

  lemma {:induction false} HaltingLands(job: Job) returns (a: nat)
    requires 0 <= job.overlap < job.size && Halts(job)
    ensures LandsAt(job, a)
  {
    hide Orbit, ChosenEnd;
    var m: nat :| Orbit(job, m) >= |job.text|;
    a := LastNegative(job, m);
    forall k: nat | a <= k && Orbit(job, k) < |job.text| ensures Advances(job, Orbit(job, k)) {
      if k >= m {
        Settled(job, m, k);
      } else if !Advances(job, Orbit(job, k)) {
        StallStays(job, k, m - k);
      }
    }
    forall k | 0 <= k < a ensures Orbit(job, k) < 0 || Stalls(job, Orbit(job, k)) {
      if Orbit(job, k) >= |job.text| {
        Settled(job, k, a - 1);
      } else if Orbit(job, k) >= 0 && Advances(job, Orbit(job, k)) {
        AdvanceStays(job, k, a - 1 - k);
      }
    }
  }

  /**
   For every text: the loop ends exactly if it has a last landing, from which on every round
   chooses an end more than the overlap behind its start. Before it there are only rounds
   that start below zero or do not move forward.
   */
  lemma {:induction false} HaltsIffAdvances(job: Job)
    requires 0 <= job.overlap < job.size
    ensures Halts(job) <==> exists a :: LandsAt(job, a)
  {
    hide Orbit, ChosenEnd;
    if Halts(job) {
      var a := HaltingLands(job);
    }
    if exists a :: LandsAt(job, a) {
      var a :| LandsAt(job, a);
      AdvanceBy(job, a, |job.text|);
    }
  }

  ghost predicate CoversAll(job: Job, k: nat) {
    forall i :: 0 <= i < |job.text| && !job.blank(job.text[i]) ==> Covered(job, k, i)
  }

  /** From the last landing on, no round looks at what lies before it. */
  lemma {:induction false} OnlyBeforeLanding(job: Job, a: nat, k: nat, i: nat)
    requires LandsAt(job, a) && i < Orbit(job, a) && i < |job.text|
    ensures Covered(job, k, i) ==> Covered(job, a, i)
  {
    hide Orbit, ChosenEnd, SpanOf;
    if Covered(job, k, i) {
      var r :| 0 <= r < k && CoveredBy(job, r, i);
      SpanCovers(job, Orbit(job, r), i);
      if r >= a {
        AdvanceBy(job, a, r - a);
      }
    }
  }

  /**
   For every text: a loop that ends covers every non-blank character exactly if the rounds
   before its last landing cover those before that landing.
   */
  lemma {:induction false} CoversIff(job: Job, a: nat, k: nat)
    requires 0 <= job.overlap && LandsAt(job, a) && Orbit(job, k) >= |job.text|
    ensures CoversAll(job, k) <==>
              forall i :: 0 <= i < |job.text| && i < Orbit(job, a) && !job.blank(job.text[i]) ==> Covered(job, a, i)
  {
    hide Orbit, ChosenEnd, Covered;
    forall i | 0 <= i < |job.text| && !job.blank(job.text[i])
      ensures Covered(job, k, i) <==> i >= Orbit(job, a) || Covered(job, a, i)
    {
      if i < Orbit(job, a) {
        OnlyBeforeLanding(job, a, k, i);
        if Covered(job, a, i) {
          LandingFirst(job, a, k);
          MoreCovered(job, a, k, i);
        }
      } else {
        LandingFirst(job, a, k);
        CoverFrom(job, a, k - a, i);
      }
    }
  }

  lemma {:induction false} MoreCovered(job: Job, k: nat, m: nat, i: nat)
    requires k <= m && Covered(job, k, i)
    ensures Covered(job, m, i)
  {
    hide CoveredBy;
  }

  lemma {:induction false} LandingFirst(job: Job, a: nat, k: nat)
    requires LandsAt(job, a) && Orbit(job, k) >= |job.text|
    ensures a <= k
  {
    hide Orbit, AdvancesFrom;
    assert k < a ==> Orbit(job, k) < |job.text|;
  }

  // ----- texts with at most one early punctuation -----

  /** The end chosen in the first round lies within the first `overlap` characters, so `start` falls below zero. */
  predicate FirstFalls(job: Job) {
    ChosenEnd(job, 0) < job.overlap
  }

  /**
   No punctuation ends within the first `overlap` characters, except possibly where the first
   round ends, if chunks are longer than two overlaps.
   */
  ghost predicate EarlyOnce(job: Job) {
    forall k, p :: 0 <= k < |PUNCTUATION| && At(job.text, PUNCTUATION[k], p) ==>
      || job.overlap <= p + |PUNCTUATION[k]|
      || (p + |PUNCTUATION[k]| == ChosenEnd(job, 0) && 2 * job.overlap < job.size)
  }

  /** It falls below zero only at a punctuation that ends within the first `overlap` characters. */
  lemma {:induction false} FallsAtFirst(job: Job, s: int)
    requires 0 <= job.overlap < job.size && EarlyOnce(job) && Stalls(job, s) && NextStart(job, s) < 0
    ensures NextStart(job, s) == NextStart(job, 0) && FirstFalls(job)
  {
    hide BreakFrom, At;
    var j, p := BreakInside(job.text, s, s + job.size, 0);
  }

  /** After a stall the loop goes on stalling, or comes back to where the first round left it. */
  lemma {:induction false} StallsOrReturns(job: Job, k: nat, m: nat) returns (back: nat)
    requires 0 <= job.overlap < job.size && EarlyOnce(job) && Stalls(job, Orbit(job, k))
    ensures Stalls(job, Orbit(job, k + m)) ||
            (k < back <= k + m && Orbit(job, back) == Orbit(job, 1) < 0 && FirstFalls(job))
  {
    hide Orbit, EarlyOnce, ChosenEnd;
    back := 0;
    if m > 0 {
      back := StallsOrReturns(job, k, m - 1);
      if Stalls(job, Orbit(job, k + m - 1)) {
        var s := Orbit(job, k + m - 1);
        OrbitNext(job, k + m - 1);
        StallsAgain(job, s);
        if NextStart(job, s) < 0 {
          FallsAtFirst(job, s);
          FirstRound(job);
          OrbitNext(job, 0);
          back := k + m;
        }
      }
    }
  }

  /** A start below zero makes an empty window, so the round moves on by a whole stride. */
  lemma {:induction false} BelowZero(job: Job, s: int)
    requires 0 <= job.overlap < job.size < |job.text| && -job.overlap <= s < 0
    ensures ChosenEnd(job, s) == s + job.size
    ensures Bound(ChosenEnd(job, s), |job.text|) <= Bound(s, |job.text|)
  {
    EmptyWindow(job.text, s, s + job.size, 0);
  }

  /** The first round from which on every round has to move forward. */
  function FirstSteady(job: Job): nat {
    if FirstFalls(job) then 1 else 0
  }

  /** One round that does not move forward, after a first one that falls below zero, is enough for the loop never to end. */
  lemma {:induction false} StallNeverHalts(job: Job, k: nat, r: nat)
    requires 0 <= job.overlap < job.size < |job.text| && EarlyOnce(job)
    requires FirstSteady(job) <= k && Orbit(job, k) < |job.text| && !Advances(job, Orbit(job, k))
    ensures Orbit(job, r) < |job.text|
  {
    hide Orbit, ChosenEnd, EarlyOnce;
    if r <= k {
      if Orbit(job, r) >= |job.text| {
        Settled(job, r, k);
      }
    } else {
      OrbitRange(job, k);
      if Orbit(job, k) < 0 {
        BelowZero(job, Orbit(job, k));
      }
      var back := StallsOrReturns(job, k, r - k);
      if !Stalls(job, Orbit(job, r)) {
        RepeatNeverHalts(job, 1, back, r);
      }
    }
  }

  /**
   In particular, unless several punctuations end within the first `overlap` characters, the
   loop ends exactly if every round chooses an end more than the overlap behind its start,
   the first round excepted if its own end lies within the overlap.
   */
  lemma {:induction false} EarlyOnceHaltsIff(job: Job)
    requires 0 <= job.overlap < job.size < |job.text| && EarlyOnce(job)
    ensures Halts(job) <==> AdvancesFrom(job, FirstSteady(job))
  {
    hide Orbit, ChosenEnd, EarlyOnce;
    var a := FirstSteady(job);
    if AdvancesFrom(job, a) {
      OrbitRange(job, a);
      AdvanceBy(job, a, |job.text| + job.overlap);
    } else {
      var k :| a <= k && Orbit(job, k) < |job.text| && !Advances(job, Orbit(job, k));
      forall r: nat ensures Orbit(job, r) < |job.text| {
        StallNeverHalts(job, k, r);
      }
    }
  }

  /** Where the loop resumes after a first round that ends within the overlap. */
  function Landing(job: Job): int {
    ChosenEnd(job, 0) + job.size - 2 * job.overlap
  }

  lemma {:induction false} Lands(job: Job)
    requires 0 <= job.overlap && 2 * job.overlap < job.size < |job.text| && FirstFalls(job)
    ensures Orbit(job, 1) == ChosenEnd(job, 0) - job.overlap < 0
    ensures Orbit(job, 2) == Landing(job) && 0 < ChosenEnd(job, 0) < Landing(job)
    ensures forall i :: !CoveredBy(job, 1, i)
  {
    hide Orbit, ChosenEnd, SpanOf;
    FirstRound(job);
    OrbitNext(job, 0);
    assert ChosenEnd(job, 0) > 0 by { FirstEnd(job); }
    BelowZero(job, Orbit(job, 1));
    OrbitNext(job, 1);
    forall i ensures !CoveredBy(job, 1, i) {
      EmptySpan(job, Orbit(job, 1));
    }
  }

  lemma {:induction false} EmptySpan(job: Job, s: int)
    requires Bound(ChosenEnd(job, s), |job.text|) <= Bound(s, |job.text|)
    ensures SpanOf(job, s) == Span(0, 0)
  {
    hide ChosenEnd;
  }

  lemma {:induction false} FirstEnd(job: Job)
    requires 0 < job.size < |job.text|
    ensures 0 < ChosenEnd(job, 0)
  {
    hide BreakFrom;
    BreakRange(job.text, 0, job.size, 0);
  }

  /** What the text between the first round's end and the landing must be for nothing to be lost. */
  ghost predicate GapBlank(job: Job) {
    forall i :: ChosenEnd(job, 0) <= i < Min(Landing(job), |job.text|) && 0 <= i ==> job.blank(job.text[i])
  }

  /** A position in the gap is in no chunk. */
  lemma {:induction false} GapUncovered(job: Job, k: nat, i: nat)
    requires 0 <= job.overlap && 2 * job.overlap < job.size < |job.text| && FirstFalls(job)
    requires AdvancesFrom(job, 1) && ChosenEnd(job, 0) <= i < Landing(job) && i < |job.text|
    ensures !Covered(job, k, i)
  {
    hide Orbit, ChosenEnd, SpanOf, AdvancesFrom;
    Lands(job);
    forall r: nat ensures !CoveredBy(job, r, i) {
      SpanCovers(job, Orbit(job, r), i);
      FirstRound(job);
      if r >= 2 && Orbit(job, r) < |job.text| {
        Later(job, 1, 2);
        AdvanceBy(job, 2, r - 2);
      }
    }
  }

  lemma {:induction false} Later(job: Job, a: nat, b: nat)
    requires a <= b && AdvancesFrom(job, a)
    ensures AdvancesFrom(job, b)
  {
  }

  /** The rest is covered. */
  lemma {:induction false} OutsideGapCovered(job: Job, k: nat, i: nat)
    requires 0 <= job.overlap && 2 * job.overlap < job.size < |job.text| && FirstFalls(job)
    requires AdvancesFrom(job, 1) && Orbit(job, k) >= |job.text|
    requires i < |job.text| && !job.blank(job.text[i]) && !(ChosenEnd(job, 0) <= i < Landing(job))
    ensures Covered(job, k, i)
  {
    hide Orbit, ChosenEnd, SpanOf, AdvancesFrom;
    Lands(job);
    FirstRound(job);
    if k <= 1 {
      assert false;
    } else if i < ChosenEnd(job, 0) {
      SpanCovers(job, 0, i);
      assert CoveredBy(job, 0, i);
    } else {
      Later(job, 1, 2);
      CoverFrom(job, 2, k - 2, i);
    }
  }

  /**
   In particular, unless several punctuations end within the first `overlap` characters, a
   loop that ends covers every non-blank character exactly if its first round ends at least
   an overlap into the text, or nothing but blanks lies between that end and the landing.
   */
  lemma {:induction false} EarlyOnceCoversIff(job: Job, k: nat)
    requires 0 <= job.overlap < job.size < |job.text| && EarlyOnce(job)
    requires Orbit(job, k) >= |job.text|
    ensures CoversAll(job, k) <==> !FirstFalls(job) || GapBlank(job)
  {
    hide Orbit, ChosenEnd, EarlyOnce, Covered;
    assert Halts(job);
    EarlyOnceHaltsIff(job);
    if !FirstFalls(job) {
      FirstRound(job);
      forall i | 0 <= i < |job.text| && !job.blank(job.text[i]) ensures Covered(job, k, i) {
        CoverFrom(job, 0, k, i);
      }
    } else {
      EarlyFall(job);
      Lands(job);
      forall i | 0 <= i < |job.text| && !job.blank(job.text[i])
        ensures Covered(job, k, i) <==> !(ChosenEnd(job, 0) <= i < Landing(job))
      {
        if ChosenEnd(job, 0) <= i < Landing(job) {
          GapUncovered(job, k, i);
        } else {
          OutsideGapCovered(job, k, i);
        }
      }
    }
  }

  /** Round `r` ends within the first `overlap` characters, and `i` lies between that end and where the loop resumes. */
  ghost predicate InGap(job: Job, r: nat, i: nat) {
    var s := Orbit(job, r);
    && 0 <= s < |job.text| && ChosenEnd(job, s) < job.overlap
    && ChosenEnd(job, s) <= i < ChosenEnd(job, s) + job.size - 2 * job.overlap
  }

  ghost predicate CoveredOrInGap(job: Job, k: nat, i: nat) {
    Covered(job, k, i) || exists r :: 0 <= r < k && InGap(job, r, i)
  }

  lemma {:induction false} MoreRounds(job: Job, k: nat, m: nat, i: nat)
    requires k <= m && CoveredOrInGap(job, k, i)
    ensures CoveredOrInGap(job, m, i)
  {
    hide CoveredBy, InGap;
  }

  lemma {:induction false} RoundCovers(job: Job, r: nat, i: nat)
    requires i < |job.text| && !job.blank(job.text[i])
    requires 0 <= Orbit(job, r) <= i < ChosenEnd(job, Orbit(job, r))
    ensures CoveredOrInGap(job, r + 1, i)
  {
    hide ChosenEnd, Orbit, SpanOf;
    SpanCovers(job, Orbit(job, r), i);
    assert CoveredBy(job, r, i);
  }

  lemma {:induction false} BelowZeroOnce(job: Job, k: nat)
    requires 0 <= job.overlap && 2 * job.overlap < job.size < |job.text| && Orbit(job, k) < 0
    ensures Orbit(job, k + 1) == Orbit(job, k) + job.size - job.overlap >= 0
  {
    hide Orbit, ChosenEnd;
    OrbitRange(job, k);
    BelowZero(job, Orbit(job, k));
    OrbitNext(job, k);
  }

  /** Behind every start, what is not covered lies in the gap of a round that ended within the overlap. */
  lemma {:induction false} BehindStart(job: Job, k: nat, i: nat)
    requires 0 <= job.overlap && 2 * job.overlap < job.size < |job.text|
    requires i < |job.text| && !job.blank(job.text[i]) && i < Orbit(job, k)
    ensures CoveredOrInGap(job, k, i)
    decreases k, 1
  {
    hide Orbit, ChosenEnd, CoveredOrInGap;
    FirstRound(job);
    var s := Orbit(job, k - 1);
    if s >= |job.text| {
      Settled(job, k - 1, k);
      BehindStart(job, k - 1, i);
    } else if s < 0 {
      BehindFall(job, k, i);
    } else {
      OrbitNext(job, k - 1);
      if i < s {
        BehindStart(job, k - 1, i);
      } else {
        RoundCovers(job, k - 1, i);
      }
    }
    if CoveredOrInGap(job, k - 1, i) {
      MoreRounds(job, k - 1, k, i);
    }
  }

  lemma {:induction false} BehindFall(job: Job, k: nat, i: nat)
    requires 0 <= job.overlap && 2 * job.overlap < job.size < |job.text| && k > 0 && Orbit(job, k - 1) < 0
    requires i < |job.text| && !job.blank(job.text[i]) && i < Orbit(job, k)
    ensures CoveredOrInGap(job, k, i)
    decreases k, 0
  {
    hide Orbit, ChosenEnd;
    FirstRound(job);
    BelowZeroOnce(job, k - 1);
    var r := k - 2;
    if Orbit(job, r) < 0 {
      BelowZeroOnce(job, r);
    }
    if Orbit(job, r) >= |job.text| {
      Settled(job, r, r + 1);
    }
    OrbitNext(job, r);
    if i < Orbit(job, r) {
      BehindStart(job, r, i);
      MoreRounds(job, r, k, i);
    } else if i < ChosenEnd(job, Orbit(job, r)) {
      RoundCovers(job, r, i);
      MoreRounds(job, r + 1, k, i);
    } else {
      assert InGap(job, r, i);
    }
  }

  /**
   For every text: a loop that ends loses non-blank characters only in the gaps that follow
   rounds ending within the first `overlap` characters.
   */
  lemma {:induction false} LostOnlyInGaps(job: Job, k: nat, i: nat)
    requires 0 <= job.overlap && 2 * job.overlap < job.size < |job.text| && Orbit(job, k) >= |job.text|
    requires i < |job.text| && !job.blank(job.text[i]) && !Covered(job, k, i)
    ensures exists r :: 0 <= r < k && InGap(job, r, i)
  {
    hide Orbit, Covered, InGap;
    BehindStart(job, k, i);
  }

  lemma {:induction false} EarlyFall(job: Job)
    requires 0 <= job.overlap < job.size < |job.text| && EarlyOnce(job) && FirstFalls(job)
    ensures 2 * job.overlap < job.size
  {
    hide BreakFrom, At;
    var j, p := BreakInside(job.text, 0, job.size, 0);
  }

  /** No full stop ends a sentence in the window behind `e`. */
  ghost predicate LongSentence(t: string, e: int, end: int) {
    forall p :: e - 2 < p <= end - 2 ==> !At(t, PUNCTUATION[0], p)
  }

  lemma {:induction false} StopChosen(job: Job, s: nat, e: nat)
    requires s + job.size < |job.text| && s <= e - 2 && e <= s + job.size
    requires At(job.text, PUNCTUATION[0], e - 2) && LongSentence(job.text, e, s + job.size)
    ensures ChosenEnd(job, s) == e
  {
    var p := RFind(job.text, PUNCTUATION[0], s, s + job.size);
    assert |PUNCTUATION[0]| == 2;
  }

  /**
   A full stop that ends at `e`, followed by a sentence that outlasts the window, with text
   still beyond it: from any start up to an overlap before `e` the loop goes to `e - overlap`
   and stays there.
   */
  lemma {:induction false} StuckAtSentence(job: Job, k: nat, e: nat, m: nat)
    requires 2 <= job.overlap < job.size && job.overlap <= e
    requires var s := Orbit(job, k);
             0 <= e - job.overlap <= s <= e - 2 && s + job.size < |job.text|
             && LongSentence(job.text, e, s + job.size)
    requires At(job.text, PUNCTUATION[0], e - 2)
    ensures Orbit(job, k + 1 + m) == e - job.overlap < |job.text|
    ensures !Halts(job)
  {
    hide ChosenEnd, At;
    var f := e - job.overlap;
    StopChosen(job, Orbit(job, k), e);
    StopChosen(job, f, e);
    assert Orbit(job, k + 1) == f && NextStart(job, f) == f;
    FixedPoint(job, k + 1, m);
    FixedPoint(job, k + 1, 1);
    forall r: nat ensures Orbit(job, r) < |job.text| {
      RepeatNeverHalts(job, k + 1, k + 2, r);
    }
  }

  lemma {:induction false} FixedPoint(job: Job, k: nat, m: nat)
    requires Orbit(job, k) < |job.text| && NextStart(job, Orbit(job, k)) == Orbit(job, k)
    ensures Orbit(job, k + m) == Orbit(job, k)
  {
    hide NextStart;
    if m > 0 {
      FixedPoint(job, k, m - 1);
    }
  }

  lemma {:induction false} EmptyWindow(t: string, start: int, end: int, k: nat)
    requires k <= |PUNCTUATION| && start < 0 <= end < |t| && end <= start + |t|
    ensures BreakFrom(t, start, end, k) == end
    decreases |PUNCTUATION| - k
  {
    if k < |PUNCTUATION| {
      assert |PUNCTUATION[k]| >= 1;
      EmptyWindow(t, start, end, k + 1);
    }
  }
}
