/**
 The token-bucket rate limiter.

 A call that finds too few tokens sleeps for the missing ones, but `last_update` keeps the
 reading taken before the sleep, so the time slept is credited a second time by the next
 call. The accounts below are exact about that.
 */
module TokenBucket {
  import opened Common

  datatype Config = Config(rate: int, period: int)

  /** Tokens earned in `seconds`; the seconds that `tokens` take to earn. */
  function Fill(cfg: Config, seconds: real): real
    requires cfg.period != 0
  {
    seconds * cfg.rate as real / cfg.period as real
  }

  function WaitTime(cfg: Config, tokens: real): real
    requires cfg.rate != 0
  {
    tokens * cfg.period as real / cfg.rate as real
  }

  datatype Bucket = Bucket(tokens: real, lastUpdate: real)

  /** `now` is read on taking the lock, `woke` when the sleep ends, if there is one; `cancelled` says that it ends in a cancellation. */
  datatype Call = Call(amount: real, now: real, woke: real, cancelled: bool := false)

  datatype Outcome = Granted(bucket: Bucket, waited: bool) | Cancelled(bucket: Bucket) | ZeroDivision(bucket: Bucket)

  function Available(cfg: Config, b: Bucket, t: real): real
    requires cfg.period != 0
  {
    MinReal(cfg.rate as real, b.tokens + Fill(cfg, t - b.lastUpdate))
  }

  function Acquired(cfg: Config, b: Bucket, c: Call): Outcome {
    if cfg.period == 0 then ZeroDivision(b) else
    var t := Available(cfg, b, c.now);
    if c.amount <= t then Granted(Bucket(t - c.amount, c.now), false)
    else if cfg.rate == 0 then ZeroDivision(Bucket(t, c.now))
    else if c.cancelled then Cancelled(Bucket(t, c.now))
    else Granted(Bucket(0.0, c.now), true)
  }

  class TokenBucketRateLimiter {
    const cfg: Config
    var tokens: real
    var lastUpdate: real

    constructor (rate: int, period: int, now: real)
      ensures cfg == Config(rate, period)
      ensures Snapshot() == Bucket(rate as real, now)
    {
      cfg := Config(rate, period);
      tokens := rate as real;
      lastUpdate := now;
    }

    function Snapshot(): Bucket
      reads this
    {
      Bucket(tokens, lastUpdate)
    }

    /** One call of `acquire`. `sleepFor` is what it asks `sleep` for; `ok` is false if it ends in an exception. */
    method Acquire(c: Call) returns (ok: bool, sleepFor: real)
      modifies this
      ensures Snapshot() == Acquired(cfg, old(Snapshot()), c).bucket
      ensures ok == Acquired(cfg, old(Snapshot()), c).Granted?
      ensures cfg.period != 0 && cfg.rate != 0 && Waits(cfg, old(Snapshot()), c) ==>
                sleepFor == WaitTime(cfg, c.amount - Available(cfg, old(Snapshot()), c.now))
    {
      hide Fill, WaitTime;
      sleepFor := 0.0;
      if cfg.period == 0 {
        return false, 0.0;
      }
      var elapsed := c.now - lastUpdate;
      tokens := MinReal(cfg.rate as real, tokens + Fill(cfg, elapsed));
      lastUpdate := c.now;
      if tokens < c.amount {
        if cfg.rate == 0 {
          return false, 0.0;
        }
        sleepFor := WaitTime(cfg, c.amount - tokens);
        if c.cancelled {
          return false, sleepFor;
        }
        tokens := 0.0;
      } else {
        tokens := tokens - c.amount;
      }
      ok := true;
    }
  }

  // ----- linear facts about earning; the rest of the module uses only these -----

  predicate Sane(cfg: Config) {
    cfg.rate > 0 && cfg.period > 0
  }

  lemma {:induction false} FillAdds(cfg: Config, x: real, y: real)
    requires Sane(cfg)
    ensures Fill(cfg, x + y) == Fill(cfg, x) + Fill(cfg, y)
  {
    var r, p := cfg.rate as real, cfg.period as real;
    assert (x + y) * r == x * r + y * r;
  }

  lemma {:induction false} FillMonotone(cfg: Config, x: real, y: real)
    requires Sane(cfg) && x <= y
    ensures Fill(cfg, x) <= Fill(cfg, y)
  {
    var r, p := cfg.rate as real, cfg.period as real;
    assert x * r <= y * r;
    assert (y * r - x * r) / p >= 0.0;
  }

  lemma {:induction false} FillZero(cfg: Config)
    requires Sane(cfg)
    ensures Fill(cfg, 0.0) == 0.0
  {
  }

  lemma {:induction false} WaitEarns(cfg: Config, tokens: real)
    requires Sane(cfg)
    ensures Fill(cfg, WaitTime(cfg, tokens)) == tokens
  {
    var r, p := cfg.rate as real, cfg.period as real;
    assert tokens * p / r * r == tokens * p;
    assert tokens * p / p == tokens;
  }

  // ----- runs -----

  /**
   A run with its accounts: `waited` adds up the sleeps asked for, `slept` those that took
   place, `spilled` the tokens that did not fit in the bucket.
   */
  datatype Meter = Meter(bucket: Bucket, clock: real, granted: real, waited: real, slept: real, spilled: real)

  function Start(cfg: Config, t0: real): Meter {
    Meter(Bucket(cfg.rate as real, t0), t0, 0.0, 0.0, 0.0, 0.0)
  }

  function Shortfall(cfg: Config, m: Meter, c: Call): real
    requires cfg.period != 0
  {
    c.amount - Available(cfg, m.bucket, c.now)
  }

  /** What the call is granted: its amount, or nothing if it is cancelled. */
  function Charge(cfg: Config, b: Bucket, c: Call): real {
    if Acquired(cfg, b, c).Granted? then c.amount else 0.0
  }

  predicate Waits(cfg: Config, b: Bucket, c: Call)
    requires cfg.period != 0
  {
    Available(cfg, b, c.now) < c.amount
  }

  function Next(cfg: Config, m: Meter, c: Call): Meter
    requires Sane(cfg)
  {
    var o := Acquired(cfg, m.bucket, c);
    var spill := m.bucket.tokens + Fill(cfg, c.now - m.bucket.lastUpdate) - Available(cfg, m.bucket, c.now);
    var m' := m.(bucket := o.bucket, granted := m.granted + Charge(cfg, m.bucket, c), spilled := m.spilled + spill);
    if o.Cancelled? then m'.(clock := c.woke)
    else if o.waited
    then m'.(clock := c.woke,
             waited := m.waited + WaitTime(cfg, Shortfall(cfg, m, c)),
             slept := m.slept + (c.woke - c.now))
    else m'.(clock := c.now)
  }

  /** The lock and the clock: calls follow each other, and no sleep ends early unless it is cancelled. Nobody asks for a negative amount. */
  ghost predicate LegalCall(cfg: Config, m: Meter, c: Call)
    requires Sane(cfg)
  {
    && m.clock <= c.now && 0.0 <= c.amount
    && (Waits(cfg, m.bucket, c) ==>
          if c.cancelled then c.now <= c.woke else WaitTime(cfg, Shortfall(cfg, m, c)) <= c.woke - c.now)
  }

  function Run(cfg: Config, t0: real, calls: seq<Call>): Meter
    requires Sane(cfg)
  {
    if calls == [] then Start(cfg, t0)
    else Next(cfg, Run(cfg, t0, calls[..|calls| - 1]), calls[|calls| - 1])
  }

  ghost predicate Legal(cfg: Config, t0: real, calls: seq<Call>)
    requires Sane(cfg)
  {
    calls == [] ||
    var n := |calls| - 1;
    Legal(cfg, t0, calls[..n]) && LegalCall(cfg, Run(cfg, t0, calls[..n]), calls[n])
  }

  /** Every token granted or still held came with the bucket, was earned, or was slept for a second time. */
  ghost predicate Balanced(cfg: Config, t0: real, m: Meter)
    requires Sane(cfg)
  {
    m.granted + m.bucket.tokens + m.spilled
      == cfg.rate as real + Fill(cfg, m.bucket.lastUpdate - t0 + m.waited)
  }

  ghost predicate Bounded(cfg: Config, t0: real, m: Meter)
    requires Sane(cfg)
  {
    && 0.0 <= m.bucket.tokens <= cfg.rate as real
    && 0.0 <= m.spilled
    && m.bucket.lastUpdate <= m.clock
    && m.waited <= m.slept <= m.clock - t0
  }

  lemma {:induction false} NextBalanced(cfg: Config, t0: real, m: Meter, c: Call)
    requires Sane(cfg) && Balanced(cfg, t0, m)
    ensures Balanced(cfg, t0, Next(cfg, m, c))
  {
    hide Fill, WaitTime;
    var earned := c.now - m.bucket.lastUpdate;
    FillAdds(cfg, m.bucket.lastUpdate - t0 + m.waited, earned);
    if Waits(cfg, m.bucket, c) && !c.cancelled {
      var w := WaitTime(cfg, Shortfall(cfg, m, c));
      WaitEarns(cfg, Shortfall(cfg, m, c));
      FillAdds(cfg, m.bucket.lastUpdate - t0 + m.waited + earned, w);
      assert m.bucket.lastUpdate - t0 + m.waited + earned + w == c.now - t0 + (m.waited + w);
    } else {
      assert m.bucket.lastUpdate - t0 + m.waited + earned == c.now - t0 + m.waited;
    }
  }

  lemma {:induction false} NextBounded(cfg: Config, t0: real, m: Meter, c: Call)
    requires Sane(cfg) && Bounded(cfg, t0, m) && LegalCall(cfg, m, c)
    ensures Bounded(cfg, t0, Next(cfg, m, c))
  {
    hide Fill, WaitTime;
    FillMonotone(cfg, 0.0, c.now - m.bucket.lastUpdate);
    FillZero(cfg);
    if Waits(cfg, m.bucket, c) && !c.cancelled {
      NonNegativeWait(cfg, Shortfall(cfg, m, c));
    }
  }

  lemma {:induction false} NonNegativeWait(cfg: Config, tokens: real)
    requires Sane(cfg) && 0.0 <= tokens
    ensures 0.0 <= WaitTime(cfg, tokens)
  {
    assert tokens * cfg.period as real >= 0.0;
  }

  /**
   The conservation law of every run, and the range of the token count. `spilled` and
   `waited` pin down exactly how far the code is from an average rate of `rate / period`.
   */
  lemma {:induction false} Conservation(cfg: Config, t0: real, calls: seq<Call>)
    requires Sane(cfg) && Legal(cfg, t0, calls)
    ensures var m := Run(cfg, t0, calls); Balanced(cfg, t0, m) && Bounded(cfg, t0, m)
  {
    hide Next, LegalCall, Fill;
    if calls == [] {
      FillZero(cfg);
      assert t0 - t0 + 0.0 == 0.0;
    } else {
      var n := |calls| - 1;
      Conservation(cfg, t0, calls[..n]);
      var m := Run(cfg, t0, calls[..n]);
      NextBalanced(cfg, t0, m, calls[n]);
      NextBounded(cfg, t0, m, calls[n]);
    }
  }

  /**
   What is granted, plus what is available at any later time `t`, is at most the initial
   bucket plus what `t - t0` and the total time slept earn: at most twice the nominal rate.
   */
  lemma {:induction false} GrantBound(cfg: Config, t0: real, calls: seq<Call>, t: real)
    requires Sane(cfg) && Legal(cfg, t0, calls)
    requires Run(cfg, t0, calls).clock <= t
    ensures var m := Run(cfg, t0, calls);
            && m.granted + Available(cfg, m.bucket, t) <= cfg.rate as real + Fill(cfg, t - t0 + m.slept)
            && m.granted + Available(cfg, m.bucket, t) <= cfg.rate as real + 2.0 * Fill(cfg, t - t0)
  {
    Conservation(cfg, t0, calls);
    BoundFromAccounts(cfg, t0, Run(cfg, t0, calls), t);
  }

  lemma {:induction false} BoundFromAccounts(cfg: Config, t0: real, m: Meter, t: real)
    requires Sane(cfg) && Balanced(cfg, t0, m) && Bounded(cfg, t0, m) && m.clock <= t
    ensures m.granted + Available(cfg, m.bucket, t) <= cfg.rate as real + Fill(cfg, t - t0 + m.slept)
    ensures m.granted + Available(cfg, m.bucket, t) <= cfg.rate as real + 2.0 * Fill(cfg, t - t0)
  {
    hide Fill;
    var u := m.bucket.lastUpdate;
    FillAdds(cfg, u - t0 + m.waited, t - u);
    assert u - t0 + m.waited + (t - u) == t - t0 + m.waited;
    FillMonotone(cfg, t - t0 + m.waited, t - t0 + m.slept);
    FillMonotone(cfg, t - t0 + m.slept, t - t0 + (t - t0));
    FillAdds(cfg, t - t0, t - t0);
  }

  // ----- exactly when the documented average rate is kept -----

  /**
   The average rate over one stretch of a run: what calls `i` to `j - 1` are granted, counted
   at the times at which they are let through, is at most `rate` plus what the time from the
   first to the last of these grants earns.
   */
  ghost predicate KeepsRateFromTo(cfg: Config, t0: real, calls: seq<Call>, i: nat, j: nat)
    requires Sane(cfg) && i < j <= |calls|
  {
    Run(cfg, t0, calls[..j]).granted - Run(cfg, t0, calls[..i]).granted
      <= cfg.rate as real + Fill(cfg, Run(cfg, t0, calls[..j]).clock - Run(cfg, t0, calls[..i + 1]).clock)
  }

  ghost predicate KeepsRate(cfg: Config, t0: real, calls: seq<Call>)
    requires Sane(cfg)
  {
    forall i, j :: 0 <= i < j <= |calls| ==> KeepsRateFromTo(cfg, t0, calls, i, j)
  }

  /** A bucket of capacity `rate` that a caller can keep: refilled up to the time of each grant, then charged for it. */
  function Shadow(cfg: Config, t0: real, calls: seq<Call>): real
    requires Sane(cfg)
  {
    if calls == [] then cfg.rate as real
    else
      var n := |calls| - 1;
      var dt := Run(cfg, t0, calls).clock - Run(cfg, t0, calls[..n]).clock;
      MinReal(cfg.rate as real, Shadow(cfg, t0, calls[..n]) + Fill(cfg, dt))
        - Charge(cfg, Run(cfg, t0, calls[..n]).bucket, calls[n])
  }

  /** What a stretch leaves of its allowance. */
  function Allowance(cfg: Config, t0: real, calls: seq<Call>, i: nat, j: nat): real
    requires Sane(cfg) && i < j <= |calls|
  {
    cfg.rate as real + Fill(cfg, Run(cfg, t0, calls[..j]).clock - Run(cfg, t0, calls[..i + 1]).clock)
      - (Run(cfg, t0, calls[..j]).granted - Run(cfg, t0, calls[..i]).granted)
  }

  lemma {:induction false} RunNext(cfg: Config, t0: real, calls: seq<Call>, i: nat)
    requires Sane(cfg) && i < |calls|
    ensures Run(cfg, t0, calls[..i + 1]) == Next(cfg, Run(cfg, t0, calls[..i]), calls[i])
    ensures Legal(cfg, t0, calls[..i + 1]) <==>
              Legal(cfg, t0, calls[..i]) && LegalCall(cfg, Run(cfg, t0, calls[..i]), calls[i])
  {
    hide Next, LegalCall;
    assert calls[..i + 1][..i] == calls[..i];
  }

  lemma {:induction false} NextGrants(cfg: Config, m: Meter, c: Call)
    requires Sane(cfg)
    ensures Next(cfg, m, c).granted == m.granted + Charge(cfg, m.bucket, c)
    ensures LegalCall(cfg, m, c) ==> m.clock <= Next(cfg, m, c).clock
  {
    hide Fill, WaitTime;
    if LegalCall(cfg, m, c) && Waits(cfg, m.bucket, c) {
      NonNegativeWait(cfg, Shortfall(cfg, m, c));
    }
  }

  lemma {:induction false} LegalPrefix(cfg: Config, t0: real, calls: seq<Call>, i: nat)
    requires Sane(cfg) && Legal(cfg, t0, calls) && i <= |calls|
    ensures Legal(cfg, t0, calls[..i])
  {
    hide Run, LegalCall;
    if i < |calls| {
      LegalPrefix(cfg, t0, calls[..|calls| - 1], i);
      assert calls[..|calls| - 1][..i] == calls[..i];
    } else {
      assert calls[..i] == calls;
    }
  }

  /** One more call in the shadow bucket. */
  lemma {:induction false} ShadowNext(cfg: Config, t0: real, calls: seq<Call>, j: nat)
    requires Sane(cfg) && Legal(cfg, t0, calls) && j < |calls|
    ensures var before, after := Run(cfg, t0, calls[..j]), Run(cfg, t0, calls[..j + 1]);
            && before.clock <= after.clock && after.granted == before.granted + Charge(cfg, before.bucket, calls[j])
            && Shadow(cfg, t0, calls[..j + 1])
                 == MinReal(cfg.rate as real, Shadow(cfg, t0, calls[..j]) + Fill(cfg, after.clock - before.clock))
                    - Charge(cfg, before.bucket, calls[j])
  {
    hide Run, Legal, Next, LegalCall, Fill;
    LegalPrefix(cfg, t0, calls, j + 1);
    RunNext(cfg, t0, calls, j);
    NextGrants(cfg, Run(cfg, t0, calls[..j]), calls[j]);
    assert calls[..j + 1][..j] == calls[..j];
  }

  lemma {:induction false} AllowanceNext(cfg: Config, t0: real, calls: seq<Call>, i: nat, j: nat)
    requires Sane(cfg) && Legal(cfg, t0, calls) && i < j < |calls|
    ensures var before, after := Run(cfg, t0, calls[..j]), Run(cfg, t0, calls[..j + 1]);
            Allowance(cfg, t0, calls, i, j + 1)
              == Allowance(cfg, t0, calls, i, j) + Fill(cfg, after.clock - before.clock)
                 - Charge(cfg, before.bucket, calls[j])
  {
    hide Run, Legal, Fill, Shadow;
    ShadowNext(cfg, t0, calls, j);
    var first := Run(cfg, t0, calls[..i + 1]).clock;
    var before, after := Run(cfg, t0, calls[..j]).clock, Run(cfg, t0, calls[..j + 1]).clock;
    FillAdds(cfg, before - first, after - before);
    assert before - first + (after - before) == after - first;
  }

  lemma {:induction false} AllowanceOne(cfg: Config, t0: real, calls: seq<Call>, j: nat)
    requires Sane(cfg) && Legal(cfg, t0, calls) && j < |calls|
    ensures Allowance(cfg, t0, calls, j, j + 1) == cfg.rate as real - Charge(cfg, Run(cfg, t0, calls[..j]).bucket, calls[j])
  {
    hide Run, Legal, Fill, Shadow;
    ShadowNext(cfg, t0, calls, j);
    FillZero(cfg);
    assert Run(cfg, t0, calls[..j + 1]).clock - Run(cfg, t0, calls[..j + 1]).clock == 0.0;
  }

  /** The shadow bucket holds the smallest allowance of the stretches that end here. */
  lemma {:induction false} ShadowIsLeast(cfg: Config, t0: real, calls: seq<Call>, j: nat) returns (least: nat)
    requires Sane(cfg) && Legal(cfg, t0, calls) && 0 < j <= |calls|
    ensures least < j && Shadow(cfg, t0, calls[..j]) == Allowance(cfg, t0, calls, least, j)
    ensures forall i :: 0 <= i < j ==> Shadow(cfg, t0, calls[..j]) <= Allowance(cfg, t0, calls, i, j)
  {
    hide Run, Legal, Fill, Shadow, Allowance;
    var k := j - 1;
    ShadowNext(cfg, t0, calls, k);
    AllowanceOne(cfg, t0, calls, k);
    var dt := Run(cfg, t0, calls[..j]).clock - Run(cfg, t0, calls[..k]).clock;
    FillMonotone(cfg, 0.0, dt);
    FillZero(cfg);
    least := k;
    if k == 0 {
      assert Shadow(cfg, t0, calls[..0]) == cfg.rate as real by { ShadowStart(cfg, t0, calls); }
    } else {
      var before := ShadowIsLeast(cfg, t0, calls, k);
      forall i | 0 <= i < j ensures Shadow(cfg, t0, calls[..j]) <= Allowance(cfg, t0, calls, i, j) {
        if i < k {
          AllowanceNext(cfg, t0, calls, i, k);
        }
      }
      if Shadow(cfg, t0, calls[..k]) + Fill(cfg, dt) < cfg.rate as real {
        AllowanceNext(cfg, t0, calls, before, k);
        least := before;
      }
    }
  }

  lemma {:induction false} ShadowStart(cfg: Config, t0: real, calls: seq<Call>)
    requires Sane(cfg)
    ensures Shadow(cfg, t0, calls[..0]) == cfg.rate as real
  {
  }

  /**
   A run keeps the documented average rate exactly if the shadow bucket is never overdrawn.
   `GrantBoundIsReached` is the family of runs in which it is.
   */
  lemma {:induction false} NominalRateIff(cfg: Config, t0: real, calls: seq<Call>)
    requires Sane(cfg) && Legal(cfg, t0, calls)
    ensures KeepsRate(cfg, t0, calls) <==> forall j :: 0 < j <= |calls| ==> Shadow(cfg, t0, calls[..j]) >= 0.0
  {
    hide Run, Legal, Fill, Shadow;
    forall j | 0 < j <= |calls|
      ensures Shadow(cfg, t0, calls[..j]) >= 0.0 <==>
                forall i :: 0 <= i < j ==> KeepsRateFromTo(cfg, t0, calls, i, j)
    {
      StretchIff(cfg, t0, calls, j);
    }
  }

  lemma {:induction false} StretchIff(cfg: Config, t0: real, calls: seq<Call>, j: nat)
    requires Sane(cfg) && Legal(cfg, t0, calls) && 0 < j <= |calls|
    ensures Shadow(cfg, t0, calls[..j]) >= 0.0 <==>
              forall i :: 0 <= i < j ==> KeepsRateFromTo(cfg, t0, calls, i, j)
  {
    hide Run, Legal, Fill, Shadow;
    var least := ShadowIsLeast(cfg, t0, calls, j);
    forall i | 0 <= i < j
      ensures KeepsRateFromTo(cfg, t0, calls, i, j) <==> Allowance(cfg, t0, calls, i, j) >= 0.0
    {
    }
    hide Allowance, KeepsRateFromTo;
    assert KeepsRateFromTo(cfg, t0, calls, least, j) <==> Allowance(cfg, t0, calls, least, j) >= 0.0;
  }

  /** Let through only after a sleep. */
  predicate Sleeps(cfg: Config, b: Bucket, c: Call)
    requires cfg.period != 0
  {
    Waits(cfg, b, c) && !c.cancelled
  }

  /** From call `i` on, nobody is let through after a sleep. */
  ghost predicate QuietFrom(cfg: Config, t0: real, calls: seq<Call>, i: nat)
    requires Sane(cfg)
  {
    forall k :: i <= k < |calls| ==> !Sleeps(cfg, Run(cfg, t0, calls[..k]).bucket, calls[k])
  }

  lemma {:induction false} QuietPrefix(cfg: Config, t0: real, calls: seq<Call>, j: nat)
    requires Sane(cfg) && QuietFrom(cfg, t0, calls, 0) && j <= |calls|
    ensures QuietFrom(cfg, t0, calls[..j], 0)
  {
    hide Run, Sleeps;
    forall k | 0 <= k < j ensures !Sleeps(cfg, Run(cfg, t0, calls[..j][..k]).bucket, calls[..j][k]) {
      assert calls[..j][..k] == calls[..k];
    }
  }

  lemma {:induction false} QuietAll(cfg: Config, t0: real, first: seq<Call>, more: seq<Call>)
    requires Sane(cfg) && QuietFrom(cfg, t0, first, 0) && QuietFrom(cfg, t0, first + more, |first|)
    ensures QuietFrom(cfg, t0, first + more, 0)
  {
    hide Run, Sleeps;
    var all := first + more;
    forall k | 0 <= k < |all| ensures !Sleeps(cfg, Run(cfg, t0, all[..k]).bucket, all[k]) {
      if k < |first| {
        assert all[..k] == first[..k] && all[k] == first[k];
      }
    }
  }

  /** A refill on the way changes nothing. */
  lemma {:induction false} RefillTwice(cfg: Config, b: Bucket, s: real, t: real)
    requires Sane(cfg) && s <= t
    ensures Available(cfg, b, t) == MinReal(cfg.rate as real, Available(cfg, b, s) + Fill(cfg, t - s))
    ensures Available(cfg, Bucket(Available(cfg, b, s), s), t) == Available(cfg, b, t)
  {
    hide Fill;
    FillAdds(cfg, s - b.lastUpdate, t - s);
    assert s - b.lastUpdate + (t - s) == t - b.lastUpdate;
    FillMonotone(cfg, 0.0, t - s);
    FillZero(cfg);
  }

  lemma {:induction false} QuietCall(cfg: Config, m: Meter, c: Call)
    requires Sane(cfg) && LegalCall(cfg, m, c) && !Sleeps(cfg, m.bucket, c)
    ensures var m' := Next(cfg, m, c);
            && m.clock <= m'.clock
            && Available(cfg, m'.bucket, m'.clock)
               == MinReal(cfg.rate as real, Available(cfg, m.bucket, m.clock) + Fill(cfg, m'.clock - m.clock))
                  - Charge(cfg, m.bucket, c)
  {
    hide Fill, WaitTime;
    var m' := Next(cfg, m, c);
    RefillTwice(cfg, m.bucket, c.now, m'.clock);
    RefillTwice(cfg, m.bucket, m.clock, m'.clock);
    if !Waits(cfg, m.bucket, c) {
      FillZero(cfg);
      assert c.now - c.now == 0.0;
    }
  }

  /** While nobody sleeps, the caller's bucket is the limiter's. */
  lemma {:induction false} QuietShadow(cfg: Config, t0: real, calls: seq<Call>)
    requires Sane(cfg) && Legal(cfg, t0, calls) && QuietFrom(cfg, t0, calls, 0)
    ensures var m := Run(cfg, t0, calls);
            Available(cfg, m.bucket, m.clock) == Shadow(cfg, t0, calls)
  {
    hide Fill, Next, LegalCall, Sleeps, Acquired;
    if calls == [] {
      FillZero(cfg);
      assert t0 - t0 == 0.0;
    } else {
      var n := |calls| - 1;
      QuietPrefix(cfg, t0, calls, n);
      QuietShadow(cfg, t0, calls[..n]);
      QuietCall(cfg, Run(cfg, t0, calls[..n]), calls[n]);
    }
  }

  lemma {:induction false} AvailableNow(cfg: Config, t0: real, m: Meter, t: real)
    requires Sane(cfg) && Bounded(cfg, t0, m) && m.clock <= t
    ensures 0.0 <= Available(cfg, m.bucket, t)
  {
    hide Fill;
    FillMonotone(cfg, 0.0, t - m.bucket.lastUpdate);
    FillZero(cfg);
  }

  /** Calls that find their tokens, as `get_available_tokens` would have told them, keep the rate. */
  lemma {:induction false} NoWaitKeepsRate(cfg: Config, t0: real, calls: seq<Call>)
    requires Sane(cfg) && Legal(cfg, t0, calls) && QuietFrom(cfg, t0, calls, 0)
    ensures KeepsRate(cfg, t0, calls)
  {
    hide Run, Legal, Fill, Shadow, KeepsRate, QuietFrom, Bounded;
    forall j | 0 < j <= |calls| ensures Shadow(cfg, t0, calls[..j]) >= 0.0 {
      LegalPrefix(cfg, t0, calls, j);
      QuietPrefix(cfg, t0, calls, j);
      QuietShadow(cfg, t0, calls[..j]);
      Conservation(cfg, t0, calls[..j]);
      AvailableNow(cfg, t0, Run(cfg, t0, calls[..j]), Run(cfg, t0, calls[..j]).clock);
    }
    NominalRateIff(cfg, t0, calls);
  }

  /** What a sleep leaves: nothing, as of the time before it, although the call is let through at its end. */
  lemma {:induction false} SleepingCall(cfg: Config, m: Meter, c: Call)
    requires Sane(cfg) && LegalCall(cfg, m, c) && Sleeps(cfg, m.bucket, c)
    ensures var m' := Next(cfg, m, c);
            && m'.bucket == Bucket(0.0, c.now) && m'.clock == c.woke && c.now <= c.woke
            && Charge(cfg, m.bucket, c) == c.amount
  {
    hide Fill, WaitTime;
    NonNegativeWait(cfg, Shortfall(cfg, m, c));
  }

  /** Whoever asks, at its end, for what the time slept has earned a second time. */
  function Rebate(cfg: Config, c: Call): Call
    requires Sane(cfg)
  {
    Call(MinReal(cfg.rate as real, Fill(cfg, c.woke - c.now)), c.woke, c.woke)
  }

  lemma {:induction false} RebateFound(cfg: Config, m: Meter, c: Call)
    requires Sane(cfg) && m.bucket == Bucket(0.0, c.now) && m.clock == c.woke && c.now <= c.woke
    ensures LegalCall(cfg, m, Rebate(cfg, c)) && !Waits(cfg, m.bucket, Rebate(cfg, c))
    ensures Next(cfg, m, Rebate(cfg, c)).clock == c.woke
    ensures Charge(cfg, m.bucket, Rebate(cfg, c)) == MinReal(cfg.rate as real, Fill(cfg, c.woke - c.now))
  {
    hide Fill, WaitTime;
    FillMonotone(cfg, 0.0, c.woke - c.now);
    FillZero(cfg);
  }

  lemma {:induction false} OneMore(cfg: Config, t0: real, calls: seq<Call>, c: Call)
    requires Sane(cfg)
    ensures Legal(cfg, t0, calls + [c]) <==> Legal(cfg, t0, calls) && LegalCall(cfg, Run(cfg, t0, calls), c)
    ensures Run(cfg, t0, calls + [c]) == Next(cfg, Run(cfg, t0, calls), c)
    ensures Shadow(cfg, t0, calls + [c])
              == MinReal(cfg.rate as real, Shadow(cfg, t0, calls)
                         + Fill(cfg, Next(cfg, Run(cfg, t0, calls), c).clock - Run(cfg, t0, calls).clock))
                 - Charge(cfg, Run(cfg, t0, calls).bucket, c)
  {
    hide Fill, Next, LegalCall, Charge;
    assert (calls + [c])[..|calls|] == calls;
  }

  /** After a call that slept, that request is met at once, and the rate is broken. */
  lemma {:induction false} SleepBreaksRate(cfg: Config, t0: real, calls: seq<Call>, c: Call)
    requires Sane(cfg) && Legal(cfg, t0, calls + [c]) && QuietFrom(cfg, t0, calls, 0)
    requires Sleeps(cfg, Run(cfg, t0, calls).bucket, c)
    ensures var all := calls + [c] + [Rebate(cfg, c)];
            Legal(cfg, t0, all) && QuietFrom(cfg, t0, all, |calls| + 1) && !KeepsRate(cfg, t0, all)
  {
    hide Run, Legal, Fill, WaitTime, Shadow, KeepsRate, Next, LegalCall, Charge, Bounded, Rebate;
    var m, one := Run(cfg, t0, calls), calls + [c];
    var all := one + [Rebate(cfg, c)];
    OneMore(cfg, t0, calls, c);
    OneMore(cfg, t0, one, Rebate(cfg, c));
    SleepingCall(cfg, m, c);
    RebateFound(cfg, Run(cfg, t0, one), c);
    assert all[..|one|] == one;
    QuietShadow(cfg, t0, calls);
    Conservation(cfg, t0, calls);
    LegalOrder(cfg, m, c);
    AvailableNow(cfg, t0, m, c.now);
    ShadowBroken(cfg, m, c);
    FillZero(cfg);
    assert c.woke - c.woke == 0.0;
    NominalRateIff(cfg, t0, all);
    assert all[..|all|] == all;
    assert Shadow(cfg, t0, all[..|all|]) < 0.0;
  }

  lemma {:induction false} LegalOrder(cfg: Config, m: Meter, c: Call)
    requires Sane(cfg) && LegalCall(cfg, m, c)
    ensures m.clock <= c.now && 0.0 <= c.amount
  {
  }

  lemma {:induction false} ShadowBroken(cfg: Config, m: Meter, c: Call)
    requires Sane(cfg) && m.clock <= c.now <= c.woke
    requires 0.0 <= Available(cfg, m.bucket, c.now) < c.amount
    ensures MinReal(cfg.rate as real, Available(cfg, m.bucket, m.clock) + Fill(cfg, c.woke - m.clock)) - c.amount
              < MinReal(cfg.rate as real, Fill(cfg, c.woke - c.now))
    ensures MinReal(cfg.rate as real, Available(cfg, m.bucket, m.clock) + Fill(cfg, c.woke - m.clock)) - c.amount
              <= cfg.rate as real
  {
    hide Fill;
    RefillTwice(cfg, m.bucket, m.clock, c.woke);
    RefillTwice(cfg, m.bucket, c.now, c.woke);
  }

  /**
   The documented average rate, exactly: while nobody has been let through after a sleep, the
   next call leaves it kept over every continuation of the same kind exactly if that call is
   not either. Whether it would have to sleep is `get_available_tokens() < amount`, which a
   caller can check beforehand.
   */
  lemma {:induction false} RateKeptIff(cfg: Config, t0: real, calls: seq<Call>, c: Call)
    requires Sane(cfg) && Legal(cfg, t0, calls + [c]) && QuietFrom(cfg, t0, calls, 0)
    ensures (forall more ::
               Legal(cfg, t0, calls + [c] + more) && QuietFrom(cfg, t0, calls + [c] + more, |calls| + 1) ==>
                 KeepsRate(cfg, t0, calls + [c] + more))
       <==> !Sleeps(cfg, Run(cfg, t0, calls).bucket, c)
  {
    hide Run, Legal, QuietFrom, KeepsRate, Waits, Rebate;
    if Sleeps(cfg, Run(cfg, t0, calls).bucket, c) {
      SleepBreaksRate(cfg, t0, calls, c);
    } else {
      QuietMore(cfg, t0, calls, c);
      forall more | Legal(cfg, t0, calls + [c] + more) && QuietFrom(cfg, t0, calls + [c] + more, |calls| + 1)
        ensures KeepsRate(cfg, t0, calls + [c] + more)
      {
        QuietAll(cfg, t0, calls + [c], more);
        NoWaitKeepsRate(cfg, t0, calls + [c] + more);
      }
    }
  }

  lemma {:induction false} QuietMore(cfg: Config, t0: real, calls: seq<Call>, c: Call)
    requires Sane(cfg) && QuietFrom(cfg, t0, calls, 0) && !Sleeps(cfg, Run(cfg, t0, calls).bucket, c)
    ensures QuietFrom(cfg, t0, calls + [c], 0)
  {
    hide Run, Sleeps;
    var all := calls + [c];
    forall k | 0 <= k < |all| ensures !Sleeps(cfg, Run(cfg, t0, all[..k]).bucket, all[k]) {
      if k < |calls| {
        assert all[..k] == calls[..k] && all[k] == calls[k];
      } else {
        assert all[..k] == calls;
      }
    }
  }

  /** The token count stays within `rate` from a full bucket exactly when the amount asked for is not negative. */
  lemma {:induction false} RangeKeptIff(cfg: Config, c: Call)
    requires Sane(cfg)
    ensures Acquired(cfg, Bucket(cfg.rate as real, c.now), c).bucket.tokens <= cfg.rate as real <==> 0.0 <= c.amount
  {
    hide Fill;
    FillZero(cfg);
  }

  // ----- the factor two is reached -----

  function Unit(cfg: Config): real
    requires Sane(cfg)
  {
    WaitTime(cfg, 1.0)
  }

  /** The end of the `k`-th wait. */
  function Tick(cfg: Config, k: nat): real
    requires Sane(cfg)
  {
    k as real * Unit(cfg)
  }

  /** `n` calls at time 0 for one token each. */
  function BurstCalls(n: nat): seq<Call> {
    if n == 0 then [] else BurstCalls(n - 1) + [Call(1.0, 0.0, 0.0)]
  }

  lemma {:induction false} BurstMeter(cfg: Config, n: nat)
    requires Sane(cfg) && n <= cfg.rate
    ensures Legal(cfg, 0.0, BurstCalls(n))
    ensures var m := Run(cfg, 0.0, BurstCalls(n));
            m.bucket == Bucket((cfg.rate - n) as real, 0.0) && m.clock == 0.0 && m.granted == n as real
  {
    hide LegalCall, Next, Fill;
    if n > 0 {
      BurstMeter(cfg, n - 1);
      var calls := BurstCalls(n);
      assert calls[..|calls| - 1] == BurstCalls(n - 1);
      BurstCall(cfg, Run(cfg, 0.0, BurstCalls(n - 1)));
    }
  }

  lemma {:induction false} BurstCall(cfg: Config, m: Meter)
    requires Sane(cfg) && m.bucket.lastUpdate == m.clock == 0.0 && 1.0 <= m.bucket.tokens <= cfg.rate as real
    ensures var c := Call(1.0, 0.0, 0.0);
            && LegalCall(cfg, m, c)
            && Next(cfg, m, c) == m.(bucket := Bucket(m.bucket.tokens - 1.0, 0.0),
                                     granted := m.granted + 1.0)
  {
    hide Fill;
    FillZero(cfg);
  }

  /** The burst, then `n` times one call that waits for its token and one that finds the time credited again. */
  function BackToBack(cfg: Config, n: nat): seq<Call>
    requires Sane(cfg)
  {
    if n == 0 then BurstCalls(cfg.rate)
    else
      BackToBack(cfg, n - 1)
      + [Call(1.0, Tick(cfg, n - 1), Tick(cfg, n))]
      + [Call(1.0, Tick(cfg, n), Tick(cfg, n))]
  }

  ghost predicate Drained(cfg: Config, m: Meter, t: real, granted: real) {
    m.bucket == Bucket(0.0, t) && m.clock == t && m.granted == granted
  }

  /** One such pair of calls, from an empty bucket. */
  lemma {:induction false} Pair(cfg: Config, m: Meter, t: real, u: real)
    requires Sane(cfg) && Drained(cfg, m, t, m.granted) && u == t + Unit(cfg)
    ensures var c, c' := Call(1.0, t, u), Call(1.0, u, u);
            && LegalCall(cfg, m, c) && LegalCall(cfg, Next(cfg, m, c), c')
            && Drained(cfg, Next(cfg, Next(cfg, m, c), c'), u, m.granted + 2.0)
  {
    hide Fill, WaitTime;
    FillZero(cfg);
    WaitEarns(cfg, 1.0);
    NonNegativeWait(cfg, 1.0);
    var c := Call(1.0, t, u);
    assert Available(cfg, m.bucket, t) == 0.0;
    assert Shortfall(cfg, m, c) == 1.0;
    assert Next(cfg, m, c).bucket == Bucket(0.0, t);
    assert u - t == WaitTime(cfg, 1.0);
  }

  lemma {:induction false} BackToBackMeter(cfg: Config, n: nat)
    requires Sane(cfg)
    ensures Legal(cfg, 0.0, BackToBack(cfg, n))
    ensures Drained(cfg, Run(cfg, 0.0, BackToBack(cfg, n)), Tick(cfg, n), (cfg.rate + 2 * n) as real)
  {
    hide LegalCall, Next, Tick;
    TickNext(cfg, n);
    if n == 0 {
      BurstMeter(cfg, cfg.rate);
    } else {
      BackToBackMeter(cfg, n - 1);
      var before, after := Tick(cfg, n - 1), Tick(cfg, n);
      var prev := BackToBack(cfg, n - 1);
      var one := prev + [Call(1.0, before, after)];
      var two := one + [Call(1.0, after, after)];
      Pair(cfg, Run(cfg, 0.0, prev), before, after);
      assert BackToBack(cfg, n) == two;
      assert one[..|one| - 1] == prev && two[..|two| - 1] == one;
      assert Legal(cfg, 0.0, one) && Run(cfg, 0.0, one) == Next(cfg, Run(cfg, 0.0, prev), Call(1.0, before, after));
    }
  }

  lemma {:induction false} TickNext(cfg: Config, n: nat)
    requires Sane(cfg)
    ensures if n == 0 then Tick(cfg, n) == 0.0 else Tick(cfg, n) == Tick(cfg, n - 1) + Unit(cfg)
  {
    hide Unit;
  }

  /** For every rate and period, `GrantBound` holds with equality after every one of these runs. */
  lemma {:induction false} GrantBoundIsReached(cfg: Config, n: nat)
    requires Sane(cfg)
    ensures Legal(cfg, 0.0, BackToBack(cfg, n))
    ensures var m := Run(cfg, 0.0, BackToBack(cfg, n));
            m.granted == cfg.rate as real + 2.0 * Fill(cfg, m.clock)
  {
    hide Run, Legal, Fill, WaitTime;
    BackToBackMeter(cfg, n);
    FillMultiple(cfg, n);
  }

  lemma {:induction false} FillMultiple(cfg: Config, n: nat)
    requires Sane(cfg)
    ensures Fill(cfg, Tick(cfg, n)) == n as real
  {
    hide Fill, WaitTime, Tick;
    TickNext(cfg, n);
    if n == 0 {
      FillZero(cfg);
    } else {
      FillMultiple(cfg, n - 1);
      FillAdds(cfg, Tick(cfg, n - 1), Unit(cfg));
      WaitEarns(cfg, 1.0);
    }
  }
}
