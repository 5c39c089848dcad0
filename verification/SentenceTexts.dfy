/** Texts that show what the laws of `SentenceChunker` are about. */
module SentenceTexts {
  import opened Common
  import opened PyText
  import opened SentenceChunker

  /** Punctuation stands nowhere but at `p`, where a full stop does. */
  ghost predicate OnlyStop(t: string, p: nat) {
    && p + 2 <= |t| && t[p] == '.' && t[p + 1] == ' '
    && forall i :: 0 <= i < |t| && i != p && i != p + 1 ==> t[i] == 'x'
  }

  lemma {:induction false} OnlyStopAt(t: string, p: nat, k: nat, q: int)
    requires OnlyStop(t, p) && k < |PUNCTUATION| && At(t, PUNCTUATION[k], q)
    ensures k == 0 && q == p
  {
    var pat := PUNCTUATION[k];
    assert t[q..q + |pat|][0] == t[q] == pat[0];
    if |pat| == 2 {
      assert t[q..q + 2][1] == t[q + 1] == pat[1];
    }
  }

  lemma {:induction false} StopIsAt(t: string, p: nat)
    requires OnlyStop(t, p)
    ensures At(t, PUNCTUATION[0], p)
  {
    assert t[p..p + 2] == ". ";
  }

  lemma {:induction false} NoBreak(t: string, p: nat, start: nat, end: nat, k: nat)
    requires OnlyStop(t, p) && p < start <= end <= |t| && k <= |PUNCTUATION|
    ensures BreakFrom(t, start, end, k) == end
    decreases |PUNCTUATION| - k
  {
    hide At;
    if k < |PUNCTUATION| {
      var q := RFind(t, PUNCTUATION[k], start, end);
      if q != -1 {
        OnlyStopAt(t, p, k, q);
      }
      NoBreak(t, p, start, end, k + 1);
    }
  }

  /** A sentence of `overlap` characters, then one longer than a chunk. */
  function EndlessText(size: nat, overlap: nat): string
    requires overlap >= 2
  {
    Copies('x', overlap - 2) + ". " + Copies('x', size)
  }

  /** For every chunk size and overlap of at least two there is a text on which the loop never leaves its start. */
  lemma {:induction false} NeverLeavesStart(size: nat, overlap: nat, blank: char -> bool, m: nat)
    requires 2 <= overlap < size
    ensures var job := Job(EndlessText(size, overlap), size, overlap, blank);
            !Halts(job) && Orbit(job, m + 1) == 0
  {
    var t := EndlessText(size, overlap);
    var job := Job(t, size, overlap, blank);
    assert OnlyStop(t, overlap - 2);
    StopIsAt(t, overlap - 2);
    hide At, Orbit, EndlessText;
    FirstRound(job);
    forall q | overlap - 2 < q <= size - 2 ensures !At(t, PUNCTUATION[0], q) {
      if At(t, PUNCTUATION[0], q) {
        OnlyStopAt(t, overlap - 2, 0, q);
      }
    }
    StuckAtSentence(job, 0, overlap, m);
  }

  /** A sentence of two characters, then text without punctuation. */
  function GapText(size: nat): string {
    ". " + Copies('x', size)
  }

  lemma {:induction false} GapTextStart(size: nat, overlap: nat, blank: char -> bool)
    requires 3 <= overlap && 2 * overlap < size
    ensures var job := Job(GapText(size), size, overlap, blank);
            ChosenEnd(job, 0) == 2 && EarlyOnce(job)
  {
    var t := GapText(size);
    var job := Job(t, size, overlap, blank);
    assert OnlyStop(t, 0);
    StopIsAt(t, 0);
    hide At, GapText;
    var q := RFind(t, PUNCTUATION[0], 0, size);
    assert q != -1;
    OnlyStopAt(t, 0, 0, q);
    forall k, p | 0 <= k < |PUNCTUATION| && At(t, PUNCTUATION[k], p) ensures k == 0 && p == 0 {
      OnlyStopAt(t, 0, k, p);
    }
  }

  /** For every overlap of at least three and chunks longer than two overlaps, a loop that ends and drops a character. */
  lemma {:induction false} DropsText(size: nat, overlap: nat, blank: char -> bool, k: nat)
    requires 3 <= overlap && 2 * overlap < size && !blank('x')
    ensures var job := Job(GapText(size), size, overlap, blank);
            && Halts(job) && job.text[2] == 'x' && !Covered(job, k, 2)
  {
    var t := GapText(size);
    var job := Job(t, size, overlap, blank);
    assert OnlyStop(t, 0);
    GapTextStart(size, overlap, blank);
    hide At, GapText, Orbit, Covered, EarlyOnce;
    forall r: nat | 1 <= r && Orbit(job, r) < |t| ensures Advances(job, Orbit(job, r)) {
      GapTextRound(job, r);
    }
    EarlyOnceHaltsIff(job);
    GapUncovered(job, k, 2);
  }

  lemma {:induction false} GapTextRound(job: Job, r: nat)
    requires OnlyStop(job.text, 0) && 3 <= job.overlap && 2 * job.overlap < job.size < |job.text|
    requires ChosenEnd(job, 0) == 2 && r >= 1
    ensures r >= 2 ==> Orbit(job, r) >= 2
    ensures Orbit(job, r) < |job.text| ==> Advances(job, Orbit(job, r))
  {
    hide BreakFrom, OnlyStop, Orbit;
    Lands(job);
    if r == 1 {
      BelowZero(job, Orbit(job, 1));
    } else {
      if r > 2 {
        GapTextRound(job, r - 1);
        if Orbit(job, r - 1) < |job.text| {
          OrbitNext(job, r - 1);
        } else {
          Settled(job, r - 1, r);
        }
        WholeWindow(job, Orbit(job, r - 1));
      }
      WholeWindow(job, Orbit(job, r));
    }
  }

  lemma {:induction false} WholeWindow(job: Job, s: int)
    requires OnlyStop(job.text, 0) && 0 < job.size && 0 < s
    ensures ChosenEnd(job, s) == s + job.size
  {
    hide BreakFrom;
    if s + job.size < |job.text| {
      NoBreak(job.text, 0, s, s + job.size, 0);
    }
  }

  // ----- several early punctuations -----

  /** Three kinds of punctuation of falling priority among spaces, two of them within the overlap. */
  const TwoFalls: string := ".   !    ? " + Copies(' ', 20)

  ghost predicate ThreeStops(t: string) {
    && |t| == 31 && t[0..2] == ". " && t[4..6] == "! " && t[9..11] == "? "
    && forall i :: 0 <= i < 31 && i != 0 && i != 4 && i != 9 ==> t[i] == ' '
  }

  lemma {:induction false} TwoFallsShape()
    ensures ThreeStops(TwoFalls)
  {
    var h, t := ".   !    ? ", TwoFalls;
    assert h[0] == '.' && h[1] == ' ' && h[2] == ' ' && h[3] == ' ' && h[4] == '!' && h[5] == ' ';
    assert h[6] == ' ' && h[7] == ' ' && h[8] == ' ' && h[9] == '?' && h[10] == ' ';
    assert t[0..2] == h[0..2] == ". ";
    assert t[4..6] == h[4..6] == "! ";
    assert t[9..11] == h[9..11] == "? ";
  }

  lemma {:induction false} NotAt(t: string, pat: string, i: nat)
    requires |pat| >= 1 && i < |t| && t[i] != pat[0]
    ensures !At(t, pat, i)
  {
    if i + |pat| <= |t| {
      assert t[i..i + |pat|][0] == t[i];
    }
  }

  /** No `pat` is found in the window if its first character does not stand there. */
  lemma {:induction false} NotThere(t: string, pat: string, start: nat, end: nat)
    requires |pat| >= 1 && start <= end <= |t|
    requires forall i :: start <= i < end ==> t[i] != pat[0]
    ensures RFind(t, pat, start, end) == -1
  {
    hide At;
    forall i | start <= i < end ensures !At(t, pat, i) {
      NotAt(t, pat, i);
    }
  }

  lemma {:induction false} LastThere(t: string, pat: string, start: nat, end: nat, p: nat)
    requires |pat| >= 1 && start <= p && p + |pat| <= end <= |t| && At(t, pat, p)
    requires forall i :: p < i < end ==> t[i] != pat[0]
    ensures RFind(t, pat, start, end) == p
  {
    hide At;
    forall i | p < i < end ensures !At(t, pat, i) {
      NotAt(t, pat, i);
    }
  }

  /**
   Chunks of three overlaps do not exclude a second fall below zero: on this text `start`
   falls in the first round and again in the fourth, and the loop ends although its third
   round does not move forward. So `EarlyOnce` cannot be dropped from `EarlyOnceHaltsIff`.
   */
  lemma {:induction false} FallsAgain(blank: char -> bool)
    ensures var job := Job(TwoFalls, 21, 7, blank);
            && Orbit(job, 1) == -5 && Orbit(job, 2) == 9 && Orbit(job, 3) == 4 && Orbit(job, 4) == -1
            && Halts(job) && !AdvancesFrom(job, FirstSteady(job))
  {
    TwoFallsShape();
    hide ThreeStops;
    var t := TwoFalls;
    var job := Job(t, 21, 7, blank);
    FirstStop(job);
    SecondStop(job);
    ThirdStop(job);
    hide ChosenEnd, Orbit;
    FirstRound(job);
    OrbitNext(job, 0);
    BelowZero(job, -5);
    OrbitNext(job, 1);
    OrbitNext(job, 2);
    OrbitNext(job, 3);
    BelowZero(job, -1);
    OrbitNext(job, 4);
    assert ChosenEnd(job, 13) == 34 && ChosenEnd(job, 27) == 48 by { PastEnd(job, 13); PastEnd(job, 27); }
    OrbitNext(job, 5);
    OrbitNext(job, 6);
    assert Orbit(job, 7) >= |t|;
    assert !Advances(job, Orbit(job, 2));
  }

  /**
   So the gap of the first round does not decide coverage there: for every whitespace that
   includes the space but not the punctuation, the gap is not blank, and yet nothing is lost.
   */
  lemma {:induction false} SecondFallCovers(blank: char -> bool)
    requires blank(' ') && !blank('.') && !blank('!') && !blank('?')
    ensures var job := Job(TwoFalls, 21, 7, blank);
            FirstFalls(job) && !GapBlank(job) && CoversAll(job, 7)
  {
    var job := Job(TwoFalls, 21, 7, blank);
    TwoFallsShape();
    StopsVisible(TwoFalls);
    FirstStop(job);
    StopsCovered(job.blank);
    hide ChosenEnd, Covered, ThreeStops;
  }

  lemma {:induction false} StopsVisible(t: string)
    requires ThreeStops(t)
    ensures t[0] == '.' && t[4] == '!' && t[9] == '?'
  {
    assert t[0..2][0] == t[0] && t[4..6][0] == t[4] && t[9..11][0] == t[9];
  }

  lemma {:induction false} StopsCovered(blank: char -> bool)
    requires !blank('.') && !blank('!') && !blank('?')
    ensures var job := Job(TwoFalls, 21, 7, blank); Covered(job, 7, 0) && Covered(job, 7, 4) && Covered(job, 7, 9)
  {
    var job := Job(TwoFalls, 21, 7, blank);
    TwoFallsShape();
    StopsVisible(TwoFalls);
    FirstStop(job);
    SecondStop(job);
    ThirdStop(job);
    hide ChosenEnd, Orbit, SpanOf, ThreeStops;
    FallsAgain(blank);
    FirstRound(job);
    SpanCovers(job, 0, 0);
    SpanCovers(job, 9, 9);
    SpanCovers(job, 4, 4);
    assert CoveredBy(job, 0, 0) && CoveredBy(job, 2, 9) && CoveredBy(job, 3, 4);
  }

  lemma {:induction false} PastEnd(job: Job, s: int)
    requires s + job.size >= |job.text|
    ensures ChosenEnd(job, s) == s + job.size
  {
  }

  lemma {:induction false} FirstStop(job: Job)
    requires ThreeStops(job.text) && job.size == 21
    ensures ChosenEnd(job, 0) == 2 && |job.text| == 31
  {
    hide RFind;
    LastThere(job.text, ". ", 0, 21, 0);
  }

  lemma {:induction false} SecondStop(job: Job)
    requires ThreeStops(job.text) && job.size == 21
    ensures ChosenEnd(job, 4) == 6
  {
    hide RFind;
    NotThere(job.text, ". ", 4, 25);
    LastThere(job.text, "! ", 4, 25, 4);
  }

  lemma {:induction false} ThirdStop(job: Job)
    requires ThreeStops(job.text) && job.size == 21
    ensures ChosenEnd(job, 9) == 11
  {
    hide RFind;
    NotThere(job.text, ". ", 9, 30);
    NotThere(job.text, "! ", 9, 30);
    LastThere(job.text, "? ", 9, 30, 9);
  }
}
