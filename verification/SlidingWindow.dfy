/**
 The sliding-window rate limiter.

 `Acquire` runs entirely under a lock, including its sleep, but it records the clock
 reading taken before the sleep. The deque therefore bounds recorded times, not the
 moments at which callers are let through. The lemmas below say what it does bound.
 */
module SlidingWindow {
  import opened Common

  /** Where a `popleft` loop with this cutoff stops if it starts at index `i`. */
  function Expired(d: seq<real>, i: nat, cutoff: real): (k: nat)
    requires i <= |d|
    ensures i <= k <= |d|
    ensures i < k ==> d[k - 1] < cutoff
    ensures k < |d| ==> cutoff <= d[k]
    decreases |d| - i
  {
    if i < |d| && d[i] < cutoff then Expired(d, i + 1, cutoff) else i
  }

  /** The clock readings of one call: on taking the lock, and when its sleep, if it has one, ends or is cancelled. */
  datatype Call = Call(now: real, woke: real, cancelled: bool := false)

  datatype Config = Config(maxRequests: int, window: real) {
    function Capacity(): nat {
      if maxRequests < 0 then 0 else maxRequests
    }
  }

  /** `at` is when the caller is let through; `None` is the IndexError of an empty deque, or a cancellation. */
  datatype Outcome = Outcome(deque: seq<real>, at: Option<real>)

  /** The deque is full of times that still count: what `get_current_usage() >= max_requests` tells a caller. */
  predicate Waits(cfg: Config, d: seq<real>, now: real) {
    var e := Expired(d, 0, now - cfg.window);
    |d| - e >= cfg.maxRequests && e < |d|
  }

  /** The call waits, and its sleep is not cancelled. */
  predicate Sleeps(cfg: Config, d: seq<real>, c: Call) {
    Waits(cfg, d, c.now) && !c.cancelled
  }

  function Acquired(cfg: Config, d: seq<real>, c: Call): Outcome {
    var e := Expired(d, 0, c.now - cfg.window);
    if |d| - e < cfg.maxRequests then Outcome(d[e..] + [c.now], Some(c.now))
    else if e == |d| then Outcome([], None)
    else if c.cancelled then Outcome(d[e..], None)
    else Outcome(d[Expired(d, e, c.woke - cfg.window)..] + [c.now], Some(c.woke))
  }

  class SlidingWindowRateLimiter {
    const cfg: Config
    var requests: seq<real>

    constructor (maxRequests: int, window: real)
      ensures cfg == Config(maxRequests, window) && requests == []
    {
      cfg := Config(maxRequests, window);
      requests := [];
    }

    method PopExpired(cutoff: real, ghost start: seq<real>, ghost i: nat)
      requires i <= |start| && requests == start[i..]
      modifies this
      ensures requests == start[Expired(start, i, cutoff)..]
    {
      ghost var k: nat := i;
      while requests != [] && requests[0] < cutoff
        invariant k <= |start| && requests == start[k..]
        invariant Expired(start, k, cutoff) == Expired(start, i, cutoff)
        decreases |requests|
      {
        requests, k := requests[1..], k + 1;
      }
    }

    /** One call of `acquire`; the two readings of the clock are arguments. */
    method Acquire(c: Call) returns (at: Option<real>)
      modifies this
      ensures requests == Acquired(cfg, old(requests), c).deque
      ensures at == Acquired(cfg, old(requests), c).at
    {
      ghost var d := requests;
      PopExpired(c.now - cfg.window, d, 0);
      at := Some(c.now);
      if |requests| >= cfg.maxRequests {
        if requests == [] {
          return None;
        }
        if c.cancelled {
          return None;
        }
        PopExpired(c.woke - cfg.window, d, Expired(d, 0, c.now - cfg.window));
        at := Some(c.woke);
      }
      requests := requests + [c.now];
    }
  }

  /** A run: the deque, the recorded times, the times at which callers were let through, and those at which calls ended. */
  datatype Log = Log(deque: seq<real>, recorded: seq<real>, granted: seq<real>, ended: seq<real>)

  function Ends(cfg: Config, d: seq<real>, c: Call): real {
    if Waits(cfg, d, c.now) then c.woke else c.now
  }

  function Record(cfg: Config, log: Log, c: Call): Log {
    var o, ended := Acquired(cfg, log.deque, c), log.ended + [Ends(cfg, log.deque, c)];
    match o.at
    case None => log.(deque := o.deque, ended := ended)
    case Some(t) => Log(o.deque, log.recorded + [c.now], log.granted + [t], ended)
  }

  function Run(cfg: Config, calls: seq<Call>): Log {
    if calls == [] then Log([], [], [], [])
    else Record(cfg, Run(cfg, calls[..|calls| - 1]), calls[|calls| - 1])
  }

  /** When the oldest entry that still counts leaves the window: what a waiting call sleeps until. */
  function Deadline(cfg: Config, d: seq<real>, now: real): real
    requires Waits(cfg, d, now)
  {
    d[Expired(d, 0, now - cfg.window)] + cfg.window
  }

  ghost predicate AfterLast(g: seq<real>, t: real) {
    g != [] ==> g[|g| - 1] <= t
  }

  /**
   What the lock, the clock and `sleep` give: a call reads the clock after its predecessor
   left, and a sleep that is not cancelled ends strictly after its deadline
   `requests[0] + window`.
   */
  ghost predicate LegalCall(cfg: Config, log: Log, c: Call) {
    && AfterLast(log.ended, c.now)
    && (Waits(cfg, log.deque, c.now) ==>
          if c.cancelled then c.now <= c.woke else Deadline(cfg, log.deque, c.now) < c.woke)
  }

  ghost predicate Legal(cfg: Config, calls: seq<Call>) {
    calls == [] ||
    var n := |calls| - 1;
    Legal(cfg, calls[..n]) && LegalCall(cfg, Run(cfg, calls[..n]), calls[n])
  }

  ghost predicate Sorted(g: seq<real>) {
    forall i, j :: 0 <= i <= j < |g| ==> g[i] <= g[j]
  }

  /** Entries more than `gap` places apart are more than `window` apart. */
  ghost predicate Spaced(g: seq<real>, gap: nat, window: real) {
    forall i: nat, j: nat :: i + gap < j < |g| ==> g[i] + window < g[j]
  }

  /** Recorded and granted times alternate: r0 <= g0 <= r1 <= g1 <= ... */
  ghost predicate Alternate(r: seq<real>, g: seq<real>) {
    && |r| == |g|
    && (forall i :: 0 <= i < |r| ==> r[i] <= g[i])
    && (forall i, j :: 0 <= i < j < |r| ==> g[i] <= r[j])
  }

  /** `k` recorded times have left the deque, each more than a window before the latest call ended. */
  ghost predicate Shape(cfg: Config, r: seq<real>, g: seq<real>, ended: seq<real>, k: nat) {
    && Alternate(r, g) && Sorted(g)
    && k <= |r|
    && (g != [] ==> ended != [] && g[|g| - 1] <= ended[|ended| - 1])
    && (k > 0 ==> ended != [] && r[k - 1] + cfg.window < ended[|ended| - 1])
    && Spaced(g, cfg.Capacity(), cfg.window)
  }

  ghost predicate Inv(cfg: Config, log: Log) {
    && |log.deque| <= |log.recorded| && |log.deque| <= cfg.Capacity()
    && log.deque == log.recorded[|log.recorded| - |log.deque|..]
    && Shape(cfg, log.recorded, log.granted, log.ended, |log.recorded| - |log.deque|)
  }

  /** The index shift: the grant that pushes a recorded time out comes a window after that time's predecessor. */
  lemma {:induction false} GapTo(cfg: Config, r: seq<real>, g: seq<real>, k: nat, t: real, i: nat)
    requires Alternate(r, g) && Sorted(g)
    requires k <= |r| < k + cfg.Capacity() && i + cfg.Capacity() < |g|
    requires r[k - 1] + cfg.window < t
    ensures g[i] + cfg.window < t
  {
    assert i < k - 1;
    assert g[i] <= r[k - 1];
  }

  lemma {:induction false} Lengthened(r: seq<real>, g: seq<real>, now: real, t: real)
    requires Alternate(r, g) && Sorted(g) && AfterLast(g, now) && now <= t
    ensures Alternate(r + [now], g + [t]) && Sorted(g + [t])
  {
    assert forall i :: 0 <= i < |g| ==> g[i] <= g[|g| - 1];
  }

  lemma {:induction false} Extend(
    cfg: Config, r: seq<real>, g: seq<real>, ended: seq<real>, k: nat, k': nat, now: real, t: real)
    requires Shape(cfg, r, g, ended, k) && AfterLast(ended, now) && now <= t
    requires k <= k' <= |r| < k' + cfg.Capacity()
    requires k < k' ==> r[k' - 1] + cfg.window < t
    ensures Shape(cfg, r + [now], g + [t], ended + [t], k')
  {
    Lengthened(r, g, now, t);
    var g' := g + [t];
    assert k' > 0 ==> r[k' - 1] + cfg.window < t;
    forall i: nat | i + cfg.Capacity() < |g| ensures g[i] + cfg.window < t {
      GapTo(cfg, r, g, k', t, i);
    }
    hide Alternate, Sorted;
  }

  /** The log after a grant at `t` by a call that has dropped the first `e` entries of the deque. */
  lemma {:induction false} GrantKeepsInv(cfg: Config, log: Log, e: nat, now: real, t: real)
    requires Inv(cfg, log) && AfterLast(log.ended, now) && now <= t
    requires e <= |log.deque| < e + cfg.Capacity()
    requires e > 0 ==> log.deque[e - 1] + cfg.window < t
    ensures Inv(cfg, Log(log.deque[e..] + [now], log.recorded + [now], log.granted + [t], log.ended + [t]))
  {
    hide Shape;
    var r, k := log.recorded, |log.recorded| - |log.deque|;
    assert e > 0 ==> log.deque[e - 1] == r[k + e - 1];
    Extend(cfg, r, log.granted, log.ended, k, k + e, now, t);
    assert log.deque[e..] + [now] == (r + [now])[k + e..];
  }

  /** The log after a call that has dropped `e` entries and was not let through. */
  lemma {:induction false} DropKeepsInv(cfg: Config, log: Log, e: nat, t: real)
    requires Inv(cfg, log) && AfterLast(log.ended, t) && e <= |log.deque|
    requires e > 0 ==> log.deque[e - 1] + cfg.window < t
    ensures Inv(cfg, log.(deque := log.deque[e..], ended := log.ended + [t]))
  {
    hide Alternate, Sorted, Spaced;
    var r, k := log.recorded, |log.recorded| - |log.deque|;
    assert e > 0 ==> log.deque[e - 1] == r[k + e - 1];
    assert log.deque[e..] == r[k + e..];
  }

  lemma {:induction false} RecordKeepsInv(cfg: Config, log: Log, c: Call)
    requires 0.0 <= cfg.window
    requires Inv(cfg, log) && LegalCall(cfg, log, c)
    ensures Inv(cfg, Record(cfg, log, c))
  {
    hide Inv;
    var d := log.deque;
    var e := Expired(d, 0, c.now - cfg.window);
    InvFits(cfg, log);
    if |d| - e < cfg.maxRequests {
      GrantKeepsInv(cfg, log, e, c.now, c.now);
    } else if e == |d| {
      DropKeepsInv(cfg, log, e, c.now);
      assert d[e..] == [];
    } else if c.cancelled {
      DropKeepsInv(cfg, log, e, c.woke);
    } else {
      var f := Expired(d, e, c.woke - cfg.window);
      GrantKeepsInv(cfg, log, f, c.now, c.woke);
    }
  }

  lemma {:induction false} InvFits(cfg: Config, log: Log)
    requires Inv(cfg, log)
    ensures |log.deque| <= cfg.Capacity()
  {
  }

  lemma {:induction false} RunInv(cfg: Config, calls: seq<Call>)
    requires 0.0 <= cfg.window
    requires Legal(cfg, calls)
    ensures Inv(cfg, Run(cfg, calls))
  {
    if calls != [] {
      var n := |calls| - 1;
      RunInv(cfg, calls[..n]);
      RecordKeepsInv(cfg, Run(cfg, calls[..n]), calls[n]);
    }
  }

  /**
   Over every run the deque holds at most `maxRequests` times, and any `maxRequests + 2`
   consecutive grants span more than the window.
   */
  lemma {:induction false} GrantsAreSpaced(cfg: Config, calls: seq<Call>, i: nat, j: nat)
    requires 0.0 <= cfg.window
    requires Legal(cfg, calls)
    ensures |Run(cfg, calls).deque| <= cfg.Capacity()
    ensures var g := Run(cfg, calls).granted;
            i + cfg.Capacity() < j < |g| ==> g[j] - g[i] > cfg.window
  {
    RunInv(cfg, calls);
  }

  /** A limit that is not positive lets nobody through: every call fails on the empty deque. */
  lemma {:induction false} NoCapacityNoGrants(cfg: Config, calls: seq<Call>)
    requires cfg.maxRequests <= 0
    ensures Run(cfg, calls).granted == [] && Run(cfg, calls).deque == []
  {
    if calls != [] {
      NoCapacityNoGrants(cfg, calls[..|calls| - 1]);
    }
  }

  /** How many entries of `g` lie in the closed interval from `a` to `b`. */
  function Within(g: seq<real>, a: real, b: real): nat {
    if g == [] then 0
    else Within(g[..|g| - 1], a, b) + if a <= g[|g| - 1] <= b then 1 else 0
  }

  lemma {:induction false} WithinTail(g: seq<real>, a: real, b: real, lo: nat)
    requires lo <= |g|
    requires forall i :: 0 <= i < lo ==> g[i] < a
    ensures Within(g, a, b) <= |g| - lo
  {
    if g != [] {
      var n := |g| - 1;
      WithinTail(g[..n], a, b, if lo == |g| then n else lo);
    }
  }

  lemma {:induction false} WithinSpaced(g: seq<real>, gap: nat, a: real, window: real)
    requires Sorted(g) && Spaced(g, gap, window)
    ensures Within(g, a, a + window) <= gap + 1
  {
    if g != [] {
      var n := |g| - 1;
      if g[n] <= a + window {
        WithinTail(g, a, a + window, if n < gap then 0 else n - gap);
      } else {
        WithinSpaced(g[..n], gap, a, window);
      }
    }
  }

  /** Every window of the configured length, wherever it starts, holds at most `maxRequests + 1` grants. */
  lemma {:induction false} WindowBound(cfg: Config, calls: seq<Call>, a: real)
    requires 0.0 <= cfg.window
    requires Legal(cfg, calls)
    ensures Within(Run(cfg, calls).granted, a, a + cfg.window) <= cfg.Capacity() + 1
  {
    RunInv(cfg, calls);
    InvBoundsWindow(cfg, Run(cfg, calls), a);
  }

  lemma {:induction false} InvBoundsWindow(cfg: Config, log: Log, a: real)
    requires Inv(cfg, log)
    ensures Within(log.granted, a, a + cfg.window) <= cfg.Capacity() + 1
  {
    WithinSpaced(log.granted, cfg.Capacity(), a, cfg.window);
  }

  // ----- the bound is reached, for every configuration -----

  /** From the `n`-th on, no call of the run is let through after a sleep. */
  ghost predicate QuietFrom(cfg: Config, calls: seq<Call>, n: nat) {
    forall k :: n <= k < |calls| ==> !Sleeps(cfg, Run(cfg, calls[..k]).deque, calls[k])
  }

  /** `n` further calls at an instant `t` at which every recorded time still counts. */
  lemma {:induction false} Burst(cfg: Config, before: seq<Call>, t: real, n: nat)
    requires 0.0 <= cfg.window && Legal(cfg, before)
    requires AfterLast(Run(cfg, before).ended, t)
    requires var d := Run(cfg, before).deque;
             |d| + n <= cfg.maxRequests && (d != [] ==> t - cfg.window <= d[0])
    ensures var all := before + Copies(Call(t, t), n);
            && Legal(cfg, all) && QuietFrom(cfg, all, |before|) && AfterLast(Run(cfg, all).ended, t)
            && Run(cfg, all).granted == Run(cfg, before).granted + Copies(t, n)
            && Run(cfg, all).deque == Run(cfg, before).deque + Copies(t, n)
  {
    hide Record, LegalCall, Run, Legal, QuietFrom;
    if n == 0 {
      assert before + Copies(Call(t, t), 0) == before;
      assert Run(cfg, before).granted + Copies(t, 0) == Run(cfg, before).granted;
      assert Run(cfg, before).deque + Copies(t, 0) == Run(cfg, before).deque;
      QuietAtEnd(cfg, before);
    } else {
      Burst(cfg, before, t, n - 1);
      var mid := before + Copies(Call(t, t), n - 1);
      assert before + Copies(Call(t, t), n) == mid + [Call(t, t)];
      BurstCall(cfg, Run(cfg, before), Run(cfg, mid), t, n - 1);
      OneMore(cfg, mid, Call(t, t));
      QuietMore(cfg, mid, |before|, Call(t, t));
    }
  }

  /** A run with one more call. */
  lemma {:induction false} OneMore(cfg: Config, calls: seq<Call>, c: Call)
    ensures Run(cfg, calls + [c]) == Record(cfg, Run(cfg, calls), c)
    ensures Legal(cfg, calls + [c]) <==> Legal(cfg, calls) && LegalCall(cfg, Run(cfg, calls), c)
  {
    hide Record, LegalCall;
    assert (calls + [c])[..|calls|] == calls;
  }

  lemma {:induction false} QuietAtEnd(cfg: Config, calls: seq<Call>)
    ensures QuietFrom(cfg, calls, |calls|)
  {
  }

  lemma {:induction false} QuietMore(cfg: Config, calls: seq<Call>, n: nat, c: Call)
    requires n <= |calls|
    ensures QuietFrom(cfg, calls + [c], n) <==>
              QuietFrom(cfg, calls, n) && !Sleeps(cfg, Run(cfg, calls).deque, c)
  {
    hide Run, Sleeps;
    var all := calls + [c];
    assert all[..|calls|] == calls && all[|calls|] == c;
    forall k | n <= k < |calls| ensures all[..k] == calls[..k] && all[k] == calls[k] {
    }
  }

  /** A call at an instant at which nothing expires and there is room. */
  lemma {:induction false} RoomGrant(cfg: Config, log: Log, t: real)
    requires AfterLast(log.ended, t) && |log.deque| < cfg.maxRequests
    requires log.deque != [] ==> t - cfg.window <= log.deque[0]
    ensures LegalCall(cfg, log, Call(t, t)) && !Waits(cfg, log.deque, t)
    ensures Record(cfg, log, Call(t, t))
         == Log(log.deque + [t], log.recorded + [t], log.granted + [t], log.ended + [t])
  {
    assert Expired(log.deque, 0, t - cfg.window) == 0;
    assert log.deque[0..] == log.deque;
  }

  lemma {:induction false} BurstCall(cfg: Config, start: Log, log: Log, t: real, n: nat)
    requires 0.0 <= cfg.window && AfterLast(log.ended, t)
    requires |start.deque| + n < cfg.maxRequests && (start.deque != [] ==> t - cfg.window <= start.deque[0])
    requires log.granted == start.granted + Copies(t, n) && log.deque == start.deque + Copies(t, n)
    ensures LegalCall(cfg, log, Call(t, t)) && !Waits(cfg, log.deque, t)
    ensures Record(cfg, log, Call(t, t)).granted == start.granted + Copies(t, n + 1)
    ensures Record(cfg, log, Call(t, t)).deque == start.deque + Copies(t, n + 1)
    ensures AfterLast(Record(cfg, log, Call(t, t)).ended, t)
  {
    hide Record, LegalCall, Waits;
    SameAt(t, n, 0);
    assert start.deque != [] ==> log.deque[0] == start.deque[0];
    RoomGrant(cfg, log, t);
    assert start.granted + Copies(t, n) + [t] == start.granted + Copies(t, n + 1);
    assert start.deque + Copies(t, n) + [t] == start.deque + Copies(t, n + 1);
  }

  /** A call at an instant at which everything recorded has expired. */
  lemma {:induction false} ClearingCall(cfg: Config, log: Log, t: real)
    requires cfg.maxRequests > 0 && AfterLast(log.ended, t)
    requires forall i :: 0 <= i < |log.deque| ==> log.deque[i] < t - cfg.window
    ensures LegalCall(cfg, log, Call(t, t)) && !Waits(cfg, log.deque, t)
    ensures Record(cfg, log, Call(t, t)) == Log([t], log.recorded + [t], log.granted + [t], log.ended + [t])
  {
    assert Expired(log.deque, 0, t - cfg.window) == |log.deque|;
  }

  /** `maxRequests` calls at such an instant. */
  lemma {:induction false} FreshBurst(cfg: Config, before: seq<Call>, t: real)
    requires cfg.maxRequests > 0 && 0.0 <= cfg.window && Legal(cfg, before)
    requires var log := Run(cfg, before);
             AfterLast(log.ended, t) && forall i :: 0 <= i < |log.deque| ==> log.deque[i] < t - cfg.window
    ensures var all := before + Copies(Call(t, t), cfg.maxRequests);
            && Legal(cfg, all) && QuietFrom(cfg, all, |before|)
            && Run(cfg, all).granted == Run(cfg, before).granted + Copies(t, cfg.maxRequests)
  {
    hide Record, LegalCall, Run, Legal, QuietFrom, Waits;
    var m, c := cfg.maxRequests, Call(t, t);
    var log := Run(cfg, before);
    ClearingCall(cfg, log, t);
    OneMore(cfg, before, c);
    QuietAtEnd(cfg, before);
    QuietMore(cfg, before, |before|, c);
    var one := before + [c];
    Burst(cfg, one, t, m - 1);
    SamePrepend(c, m);
    SamePrepend(t, m);
    assert one + Copies(c, m - 1) == before + Copies(c, m);
    assert log.granted + [t] + Copies(t, m - 1) == log.granted + Copies(t, m);
    QuietJoin(cfg, before + Copies(c, m), |before|);
    assert (before + Copies(c, m))[..|before|] == before && (before + Copies(c, m))[|before|] == c;
  }

  lemma {:induction false} QuietJoin(cfg: Config, calls: seq<Call>, n: nat)
    requires n < |calls| && QuietFrom(cfg, calls, n + 1)
    ensures !Sleeps(cfg, Run(cfg, calls[..n]).deque, calls[n]) ==> QuietFrom(cfg, calls, n)
  {
  }

  lemma {:induction false} SameAt(t: real, n: nat, i: nat)
    ensures i < n ==> Copies(t, n)[i] == t
  {
    if n > 0 && i < n - 1 {
      SameAt(t, n - 1, i);
    }
  }

  lemma {:induction false} WithinSame(g: seq<real>, t: real, n: nat, a: real, b: real)
    ensures Within(g + Copies(t, n), a, b) == Within(g, a, b) + if a <= t <= b then n else 0
  {
    var h := g + Copies(t, n);
    if n == 0 {
      assert h == g;
    } else {
      assert h[..|h| - 1] == g + Copies(t, n - 1);
      WithinSame(g, t, n - 1, a, b);
    }
  }

  /** A full burst, and one more call, which has to wait and is let through at `wake`. */
  function WaitingRun(cfg: Config, wake: real): seq<Call> {
    Copies(Call(0.0, 0.0), cfg.Capacity()) + [Call(0.0, wake)]
  }

  lemma {:induction false} WaitingRunLegal(cfg: Config, wake: real)
    requires cfg.maxRequests > 0 && 0.0 < cfg.window < wake
    ensures Legal(cfg, WaitingRun(cfg, wake))
    ensures Run(cfg, WaitingRun(cfg, wake)).deque == [0.0]
    ensures Run(cfg, WaitingRun(cfg, wake)).granted == Copies(0.0, cfg.Capacity()) + [wake]
    ensures AfterLast(Run(cfg, WaitingRun(cfg, wake)).ended, wake)
  {
    hide Record, LegalCall, Run, Legal;
    var m := cfg.Capacity();
    var first := Copies(Call(0.0, 0.0), m);
    EmptyRun(cfg);
    Burst(cfg, [], 0.0, m);
    assert [] + first == first && [] + Copies(0.0, m) == Copies(0.0, m);
    WaitingCall(cfg, Run(cfg, first), wake);
    OneMore(cfg, first, Call(0.0, wake));
  }

  lemma {:induction false} EmptyRun(cfg: Config)
    ensures Legal(cfg, []) && Run(cfg, []) == Log([], [], [], [])
  {
  }

  lemma {:induction false} WaitingCall(cfg: Config, log: Log, wake: real)
    requires cfg.maxRequests > 0 && 0.0 < cfg.window < wake
    requires log.deque == Copies(0.0, cfg.Capacity()) == log.granted && AfterLast(log.ended, 0.0)
    ensures LegalCall(cfg, log, Call(0.0, wake))
    ensures Record(cfg, log, Call(0.0, wake)).deque == [0.0]
    ensures Record(cfg, log, Call(0.0, wake)).granted == log.granted + [wake]
    ensures Record(cfg, log, Call(0.0, wake)).ended == log.ended + [wake]
  {
    var m := cfg.Capacity();
    SameAt(0.0, m, 0);
    assert Expired(log.deque, 0, 0.0 - cfg.window) == 0;
    var f := Expired(log.deque, 0, wake - cfg.window);
    SameAt(0.0, m, f);
    assert f == m;
  }

  /** After the waiting call, a second full burst: its recorded time is already outside the window. */
  function TwoBursts(cfg: Config, wake: real): seq<Call> {
    WaitingRun(cfg, wake) + Copies(Call(wake, wake), cfg.Capacity())
  }

  /**
   For every positive `maxRequests` and window some legal run lets `maxRequests + 1` callers
   through at one instant, so "at most `maxRequests` per window" is not what the code gives.
   */
  lemma {:induction false} WindowBoundIsReached(cfg: Config, wake: real)
    requires cfg.maxRequests > 0 && 0.0 < cfg.window < wake
    ensures Legal(cfg, TwoBursts(cfg, wake))
    ensures Within(Run(cfg, TwoBursts(cfg, wake)).granted, wake, wake) == cfg.maxRequests + 1
  {
    hide Run, Legal, WaitingRun;
    var m := cfg.Capacity();
    WaitingRunLegal(cfg, wake);
    FreshBurst(cfg, WaitingRun(cfg, wake), wake);
    var g := Copies(0.0, m) + [wake];
    WithinSame(g, wake, m, wake, wake);
    assert g[..m] == Copies(0.0, m) == [] + Copies(0.0, m);
    WithinSame([], 0.0, m, wake, wake);
  }

  lemma {:induction false} SamePrepend<T>(x: T, n: nat)
    requires n > 0
    ensures Copies(x, n) == [x] + Copies(x, n - 1)
  {
    if n > 1 {
      SamePrepend(x, n - 1);
    }
  }

  // ----- exactly when the documented bound is kept -----

  /** What the limiter is for: no window holds more than `maxRequests` grants. */
  ghost predicate WindowsKept(cfg: Config, g: seq<real>) {
    forall a :: InWindow(cfg, g, a) <= cfg.Capacity()
  }

  /** The grants in the window that starts at `a`. */
  function InWindow(cfg: Config, g: seq<real>, a: real): nat {
    Within(g, a, a + cfg.window)
  }

  /** As long as nobody is let through after a sleep, recorded times are grant times, and `maxRequests` of them span the window. */
  lemma {:induction false} QuietSpaced(cfg: Config, calls: seq<Call>)
    requires cfg.maxRequests > 0 && 0.0 <= cfg.window && Legal(cfg, calls) && QuietFrom(cfg, calls, 0)
    ensures var log := Run(cfg, calls);
            log.recorded == log.granted && Spaced(log.granted, cfg.maxRequests - 1, cfg.window)
  {
    hide Record, LegalCall, Inv;
    if calls != [] {
      var n := |calls| - 1;
      var before, c := calls[..n], calls[n];
      assert calls == before + [c];
      hide Run, Legal, QuietFrom;
      OneMore(cfg, before, c);
      QuietMore(cfg, before, 0, c);
      QuietSpaced(cfg, before);
      RunInv(cfg, before);
      RunInv(cfg, calls);
      QuietCall(cfg, Run(cfg, before), c);
      if !Waits(cfg, Run(cfg, before).deque, c.now) {
        LastSpaced(cfg, Run(cfg, before), Run(cfg, calls), c.now);
      }
    }
  }

  lemma {:induction false} QuietCall(cfg: Config, log: Log, c: Call)
    requires cfg.maxRequests > 0 && !Sleeps(cfg, log.deque, c)
    ensures var log' := Record(cfg, log, c);
            if Waits(cfg, log.deque, c.now)
            then log'.recorded == log.recorded && log'.granted == log.granted
            else
              && log'.recorded == log.recorded + [c.now] && log'.granted == log.granted + [c.now]
              && log'.ended == log.ended + [c.now]
  {
  }

  lemma {:induction false} LastSpaced(cfg: Config, log: Log, log': Log, t: real)
    requires cfg.maxRequests > 0 && Inv(cfg, log') && log.recorded == log.granted
    requires Spaced(log.granted, cfg.maxRequests - 1, cfg.window)
    requires log'.recorded == log'.granted == log.granted + [t] && log'.ended == log.ended + [t]
    ensures Spaced(log'.granted, cfg.maxRequests - 1, cfg.window)
  {
    var g, k := log'.granted, |log'.recorded| - |log'.deque|;
    var n := |g| - 1;
    forall i: nat, j: nat | i + (cfg.maxRequests - 1) < j < |g| ensures g[i] + cfg.window < g[j] {
      if j == n {
        assert i <= k - 1;
        assert g[i] <= g[k - 1];
      } else {
        assert g[i] == log.granted[i] && g[j] == log.granted[j];
      }
    }
  }

  /** A run in which nobody is let through after a sleep keeps the documented bound. */
  lemma {:induction false} QuietKeepsWindows(cfg: Config, calls: seq<Call>)
    requires cfg.maxRequests > 0 && 0.0 <= cfg.window && Legal(cfg, calls) && QuietFrom(cfg, calls, 0)
    ensures WindowsKept(cfg, Run(cfg, calls).granted)
  {
    hide Run, Legal, QuietFrom;
    QuietSpaced(cfg, calls);
    RunInv(cfg, calls);
    var g := Run(cfg, calls).granted;
    forall a ensures InWindow(cfg, g, a) <= cfg.maxRequests {
      WithinSpaced(g, cfg.maxRequests - 1, a, cfg.window);
    }
  }

  /** When a full burst breaks the bound after a call that waited from `now` to `woke`. */
  function BreakingTime(cfg: Config, c: Call): real {
    MaxReal(c.woke, (c.now + c.woke) / 2.0 + cfg.window)
  }

  lemma {:induction false} AllUpTo(cfg: Config, log: Log, now: real, i: nat)
    requires Inv(cfg, log) && AfterLast(log.ended, now) && i < |log.deque|
    ensures log.deque[i] <= now
  {
    var j := |log.recorded| - |log.deque| + i;
    assert log.deque[i] == log.recorded[j] <= log.granted[j];
    assert log.granted[j] <= log.granted[|log.granted| - 1];
  }

  lemma {:induction false} WaitedCall(cfg: Config, log: Log, c: Call)
    requires 0.0 <= cfg.window && Inv(cfg, log) && LegalCall(cfg, log, c)
    requires Waits(cfg, log.deque, c.now) && !c.cancelled
    ensures c.now < c.woke
    ensures var log' := Record(cfg, log, c);
            && log'.granted == log.granted + [c.woke] && log'.ended == log.ended + [c.woke]
            && forall i :: 0 <= i < |log'.deque| ==> log'.deque[i] <= c.now
  {
    hide Inv;
    var d := log.deque;
    var e := Expired(d, 0, c.now - cfg.window);
    assert c.now <= Deadline(cfg, d, c.now);
    var f := Expired(d, e, c.woke - cfg.window);
    var d' := d[f..] + [c.now];
    forall i | 0 <= i < |d'| ensures d'[i] <= c.now {
      if i < |d'| - 1 {
        AllUpTo(cfg, log, c.now, f + i);
      }
    }
  }

  /** After a call that waited, whatever came before, a full burst breaks the bound and nobody in it waits. */
  lemma {:induction false} WaitBreaksWindows(cfg: Config, calls: seq<Call>, c: Call)
    requires cfg.maxRequests > 0 && 0.0 <= cfg.window && Legal(cfg, calls + [c])
    requires Sleeps(cfg, Run(cfg, calls).deque, c)
    ensures var t := BreakingTime(cfg, c);
            var all := calls + [c] + Copies(Call(t, t), cfg.maxRequests);
            && Legal(cfg, all) && QuietFrom(cfg, all, |calls| + 1)
            && !WindowsKept(cfg, Run(cfg, all).granted)
  {
    hide Run, Legal, QuietFrom, Record, LegalCall, Inv, Waits, Within;
    var t, m := BreakingTime(cfg, c), cfg.maxRequests;
    OneMore(cfg, calls, c);
    RunInv(cfg, calls);
    WaitedCall(cfg, Run(cfg, calls), c);
    var one := calls + [c];
    FreshBurst(cfg, one, t);
    var g := Run(cfg, calls).granted;
    WithinSame(g + [c.woke], t, m, t - cfg.window, t);
    WithinOne(g, c.woke, t - cfg.window, t);
    assert t - cfg.window + cfg.window == t;
    assert InWindow(cfg, g + [c.woke] + Copies(t, m), t - cfg.window) > m;
  }

  lemma {:induction false} WithinOne(g: seq<real>, t: real, a: real, b: real)
    requires a <= t <= b
    ensures Within(g + [t], a, b) >= 1
  {
    assert (g + [t])[..|g|] == g;
  }

  /**
   The documented bound, at most `maxRequests` grants per window, exactly: while nobody has
   been let through after a sleep, the next call leaves it kept over every continuation of
   the same kind exactly if that call is not either. Whether it would have to sleep is
   `Waits`, which a caller can check beforehand.
   */
  lemma {:induction false} WindowKeptIff(cfg: Config, calls: seq<Call>, c: Call)
    requires cfg.maxRequests > 0 && 0.0 <= cfg.window
    requires Legal(cfg, calls + [c]) && QuietFrom(cfg, calls, 0)
    ensures (forall more :: Legal(cfg, calls + [c] + more) && QuietFrom(cfg, calls + [c] + more, |calls| + 1) ==>
               WindowsKept(cfg, Run(cfg, calls + [c] + more).granted))
       <==> !Sleeps(cfg, Run(cfg, calls).deque, c)
  {
    hide Run, Legal, QuietFrom, WindowsKept, Waits;
    if Sleeps(cfg, Run(cfg, calls).deque, c) {
      WaitBreaksWindows(cfg, calls, c);
    } else {
      QuietMore(cfg, calls, 0, c);
      forall more | Legal(cfg, calls + [c] + more) && QuietFrom(cfg, calls + [c] + more, |calls| + 1)
        ensures WindowsKept(cfg, Run(cfg, calls + [c] + more).granted)
      {
        QuietAll(cfg, calls + [c], more);
        QuietKeepsWindows(cfg, calls + [c] + more);
      }
    }
  }

  lemma {:induction false} QuietAll(cfg: Config, first: seq<Call>, more: seq<Call>)
    requires QuietFrom(cfg, first, 0) && QuietFrom(cfg, first + more, |first|)
    ensures QuietFrom(cfg, first + more, 0)
  {
    hide Run, Sleeps;
    var all := first + more;
    forall k | 0 <= k < |all| ensures !Sleeps(cfg, Run(cfg, all[..k]).deque, all[k]) {
      if k < |first| {
        assert all[..k] == first[..k] && all[k] == first[k];
      }
    }
  }

  /**
   Why the sleep has to end strictly after its deadline: the waiting call evicts the oldest
   entry, and so stays within `maxRequests`, exactly when it does.
   */
  lemma {:induction false} WaitEvictsIffStrictlyLate(cfg: Config, d: seq<real>, c: Call)
    requires |d| <= cfg.maxRequests && Waits(cfg, d, c.now) && !c.cancelled
    ensures |Acquired(cfg, d, c).deque| <= cfg.maxRequests <==> Deadline(cfg, d, c.now) < c.woke
  {
    assert Expired(d, 0, c.now - cfg.window) == 0;
  }
}
