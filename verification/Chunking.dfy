/** Python's slicing, searching and stripping, as far as the chunkers use them. */
module PyText {
  import opened Common

  /** A slice bound: negative ones count from the end, and all are clipped. */
  function Bound(i: int, n: nat): (b: nat)
    ensures b <= n
    ensures 0 <= i <= n ==> b == i
  {
    if i < 0 then Max(0, i + n) else Min(i, n)
  }

  function Slice(t: string, a: int, b: int): string {
    var lo, hi := Bound(a, |t|), Bound(b, |t|);
    if lo < hi then t[lo..hi] else ""
  }

  predicate At(t: string, pat: string, p: int) {
    0 <= p && p + |pat| <= |t| && t[p..p + |pat|] == pat
  }

  /** The last place not before `lo` and not after `p` where `pat` stands, or -1. */
  function LastAt(t: string, pat: string, lo: nat, p: int): (r: int)
    ensures r == -1 || (lo <= r <= p && At(t, pat, r))
    ensures forall q :: Max(r + 1, lo) <= q <= p ==> !At(t, pat, q)
    decreases p
  {
    if p < lo then -1 else if At(t, pat, p) then p else LastAt(t, pat, lo, p - 1)
  }

  /** `t.rfind(pat, a, b)`. */
  function RFind(t: string, pat: string, a: int, b: int): int {
    LastAt(t, pat, Bound(a, |t|), Bound(b, |t|) - |pat|)
  }

  function SkipBlank(blank: char -> bool, t: string, i: nat): (r: nat)
    requires i <= |t|
    ensures i <= r <= |t|
    ensures forall q :: i <= q < r ==> blank(t[q])
    decreases |t| - i
  {
    if i < |t| && blank(t[i]) then SkipBlank(blank, t, i + 1) else i
  }

  function DropBlank(blank: char -> bool, t: string, lo: nat, j: nat): (r: nat)
    requires lo <= j <= |t|
    ensures lo <= r <= j
    ensures forall q :: r <= q < j ==> blank(t[q])
    decreases j
  {
    if lo < j && blank(t[j - 1]) then DropBlank(blank, t, lo, j - 1) else j
  }

  /** `t.strip()` for the given notion of whitespace. */
  function Strip(blank: char -> bool, t: string): string {
    var lo := SkipBlank(blank, t, 0);
    t[lo..DropBlank(blank, t, lo, |t|)]
  }
}

/** The plain chunker. */
module PlainChunker {
  import opened Common
  import opened PyText

  function ChunksFrom(text: string, size: int, overlap: int, start: int): seq<string>
    requires overlap < size
    decreases |text| - start
  {
    if start >= |text| then []
    else [Slice(text, start, start + size)] + ChunksFrom(text, size, overlap, start + size - overlap)
  }

  /** Python's loop comes to an end exactly for these arguments; see `TerminatesIff`. */
  method ChunkText(text: string, size: int, overlap: int) returns (chunks: seq<string>)
    requires text == "" || overlap < size
    ensures text == "" ==> chunks == []
    ensures overlap < size ==> chunks == ChunksFrom(text, size, overlap, 0)
  {
    chunks := [];
    var start := 0;
    while start < |text|
      invariant text == "" ==> chunks == [] && start == 0
      invariant overlap < size ==> chunks + ChunksFrom(text, size, overlap, start) == ChunksFrom(text, size, overlap, 0)
      decreases |text| - start
    {
      var end := start + size;
      chunks := chunks + [Slice(text, start, end)];
      start := end - overlap;
    }
  }

  /** Where the loop stands after `k` rounds. */
  function StartAfter(size: int, overlap: int, k: nat): int {
    if k == 0 then 0 else StartAfter(size, overlap, k - 1) + size - overlap
  }

  lemma {:induction false} StartIs(size: int, overlap: int, k: nat)
    ensures StartAfter(size, overlap, k) == k * (size - overlap)
  {
    if k > 0 {
      StartIs(size, overlap, k - 1);
    }
  }

  lemma {:induction false} StartMoves(size: int, overlap: int, k: nat)
    ensures if overlap < size then k <= StartAfter(size, overlap, k) else StartAfter(size, overlap, k) <= 0
  {
    if k > 0 {
      StartMoves(size, overlap, k - 1);
    }
  }

  lemma {:induction false} TerminatesIff(text: string, size: int, overlap: int)
    ensures (exists k :: StartAfter(size, overlap, k) >= |text|) <==> text == "" || overlap < size
  {
    hide StartAfter;
    StartMoves(size, overlap, |text|);
    if text == "" {
      assert StartAfter(size, overlap, 0) == 0 by {
        StartIs(size, overlap, 0);
      }
    } else if overlap >= size {
      forall k ensures StartAfter(size, overlap, k) < |text| {
        StartMoves(size, overlap, k);
      }
    }
  }

  /** Joins the chunks after cutting each to the stride: what is left of a chunk repeats in the next. */
  function Rejoin(chunks: seq<string>, stride: nat): string {
    if chunks == [] then ""
    else chunks[0][..Min(stride, |chunks[0]|)] + Rejoin(chunks[1..], stride)
  }

  /** A window that starts in the text, and its part before the next stride. */
  lemma {:induction false} WindowIs(text: string, start: nat, size: nat, stride: nat)
    requires start < |text| && stride <= size
    ensures var c := Slice(text, start, start + size);
            && c == text[start..Min(start + size, |text|)]
            && c[..Min(stride, |c|)] == text[start..Min(start + stride, |text|)]
  {
  }

  lemma {:induction false} RejoinFrom(text: string, size: int, overlap: int, start: nat)
    requires 0 <= overlap < size
    ensures Rejoin(ChunksFrom(text, size, overlap, start), size - overlap) == text[Min(start, |text|)..]
    decreases |text| - start
  {
    hide Slice;
    if start < |text| {
      var stride := size - overlap;
      RejoinFrom(text, size, overlap, start + stride);
      WindowIs(text, start, size, stride);
      var c, rest := Slice(text, start, start + size), ChunksFrom(text, size, overlap, start + stride);
      assert ([c] + rest)[1..] == rest;
      var cut := Min(start + stride, |text|);
      assert text[start..] == text[start..cut] + text[cut..];
    }
  }

  lemma {:induction false} OneLess(k: int, stride: int)
    ensures (k - 1) * stride == k * stride - stride
  {
  }

  lemma {:induction false} CountFrom(text: string, size: int, overlap: int, start: nat)
    requires 0 <= overlap < size && start < |text|
    ensures var k, stride := |ChunksFrom(text, size, overlap, start)|, size - overlap;
            (k - 1) * stride < |text| - start <= k * stride
    decreases |text| - start
  {
    hide Slice;
    var stride := size - overlap;
    var k := |ChunksFrom(text, size, overlap, start)|;
    OneLess(k, stride);
    if start + stride < |text| {
      CountFrom(text, size, overlap, start + stride);
      OneLess(k - 1, stride);
    } else {
      assert ChunksFrom(text, size, overlap, start + stride) == [];
      assert k == 1;
    }
  }

  lemma {:induction false} ChunkFromAt(text: string, size: int, overlap: int, start: nat, j: nat)
    requires 0 <= overlap < size && j < |ChunksFrom(text, size, overlap, start)|
    ensures var at := start + StartAfter(size, overlap, j);
            && 0 <= at < |text|
            && ChunksFrom(text, size, overlap, start)[j] == text[at..Min(at + size, |text|)]
    decreases j
  {
    hide Slice;
    if j > 0 {
      var next := start + size - overlap;
      ChunkFromAt(text, size, overlap, next, j - 1);
      assert ChunksFrom(text, size, overlap, start)[j] == ChunksFrom(text, size, overlap, next)[j - 1];
    } else {
      WindowIs(text, start, size, 0);
    }
  }

  /**
   For `0 <= overlap < size`: the number of chunks is the length over the stride, rounded up;
   chunk `j` is the window of `size` characters at `j` strides; and the chunks, cut to the
   stride, give the text back.
   */
  lemma {:induction false} ChunksTile(text: string, size: int, overlap: int, j: nat)
    requires 0 <= overlap < size
    ensures var chunks, stride := ChunksFrom(text, size, overlap, 0), size - overlap;
            && Rejoin(chunks, stride) == text
            && (text != "" ==> (|chunks| - 1) * stride < |text| <= |chunks| * stride)
            && (j < |chunks| ==>
                  j * stride < |text| && chunks[j] == text[j * stride..Min(j * stride + size, |text|)])
  {
    hide ChunksFrom;
    RejoinFrom(text, size, overlap, 0);
    assert text[0..] == text;
    if text != "" {
      CountFrom(text, size, overlap, 0);
    }
    if j < |ChunksFrom(text, size, overlap, 0)| {
      ChunkFromAt(text, size, overlap, 0, j);
      StartIs(size, overlap, j);
    }
  }
}
