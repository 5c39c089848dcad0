/**
 The failed-login counter and the lock of one account. An attempt reads the row without
 locking it, checks the password, and writes back a count computed from what it read, so
 the attempts of one account can overlap.
 */
module Lockout {
  import opened Common

  datatype Config = Config(maxFailedLogins: int, lockout: real) {
    /** The number of failures that locks an account for the first time. */
    function Limit(): nat {
      if maxFailedLogins < 1 then 1 else maxFailedLogins
    }
  }

  datatype Account = Account(failedCount: nat, lockedUntil: Option<real>)

  const Unlocked := Account(0, None)

  datatype Attempt = Attempt(now: real, correct: bool)

  datatype Verdict = Locked | BadPassword | Success

  predicate IsLocked(a: Account, now: real) {
    a.lockedUntil.Some? && a.lockedUntil.value > now
  }

  /** The first half of an attempt: the count it goes on with, or nothing if the account is locked. */
  function Opened(a: Account, now: real): Option<nat> {
    if IsLocked(a, now) then None else Some(a.failedCount)
  }

  /** The second half: the row it writes, from the count that was read. */
  function Written(cfg: Config, count: nat, at: Attempt): Account {
    if at.correct then Unlocked
    else
      var failed := count + 1;
      Account(failed, if failed >= cfg.maxFailedLogins then Some(at.now + cfg.lockout) else None)
  }

  /** An attempt that nothing interrupts. */
  function Tried(cfg: Config, a: Account, at: Attempt): (Account, Verdict) {
    match Opened(a, at.now)
    case None => (a, Locked)
    case Some(count) => (Written(cfg, count, at), if at.correct then Success else BadPassword)
  }

  class AccountRow {
    var failedCount: nat
    var lockedUntil: Option<real>

    function Snapshot(): Account
      reads this
    {
      Account(failedCount, lockedUntil)
    }

    /** The SELECT and the check of the lock. */
    method Open(now: real) returns (count: Option<nat>)
      ensures count == Opened(Snapshot(), now)
    {
      if lockedUntil.Some? && lockedUntil.value > now {
        return None;
      }
      return Some(failedCount);
    }

    /** The password check and the UPDATE; `count` is what the attempt read. */
    method Write(cfg: Config, count: nat, at: Attempt)
      modifies this
      ensures Snapshot() == Written(cfg, count, at)
    {
      if at.correct {
        failedCount := 0;
        lockedUntil := None;
        return;
      }
      failedCount := count + 1;
      lockedUntil := None;
      if failedCount >= cfg.maxFailedLogins {
        lockedUntil := Some(at.now + cfg.lockout);
      }
    }

    /** The part of `authenticate` behind the lookup of an active account, undisturbed. */
    method Authenticate(cfg: Config, at: Attempt) returns (v: Verdict)
      modifies this
      ensures (Snapshot(), v) == Tried(cfg, old(Snapshot()), at)
    {
      var count := Open(at.now);
      if count == None {
        return Locked;
      }
      Write(cfg, count.value, at);
      return if at.correct then Success else BadPassword;
    }
  }

  // ----- attempts one after the other -----

  /** The account, the clock, and the times of the failed checks since the last success. */
  datatype Log = Log(account: Account, clock: real, failures: seq<real>)

  function NextSerial(cfg: Config, log: Log, at: Attempt): Log {
    var (a, v) := Tried(cfg, log.account, at);
    Log(a, at.now,
        match v
        case Locked => log.failures
        case BadPassword => log.failures + [at.now]
        case Success => [])
  }

  function SerialRun(cfg: Config, t0: real, attempts: seq<Attempt>): Log {
    if attempts == [] then Log(Unlocked, t0, [])
    else NextSerial(cfg, SerialRun(cfg, t0, attempts[..|attempts| - 1]), attempts[|attempts| - 1])
  }

  ghost predicate SerialLegal(cfg: Config, t0: real, attempts: seq<Attempt>) {
    attempts == [] ||
    var n := |attempts| - 1;
    SerialLegal(cfg, t0, attempts[..n]) && SerialRun(cfg, t0, attempts[..n]).clock <= attempts[n].now
  }

  /** Failures from the locking one on are at least a lockout period apart. */
  ghost predicate Spaced(cfg: Config, f: seq<real>) {
    forall i :: cfg.Limit() <= i < |f| ==> f[i - 1] + cfg.lockout <= f[i]
  }

  /** The lock, where the counter calls for one, runs from the last failure. */
  ghost predicate LocksLast(cfg: Config, log: Log) {
    var f, m := log.failures, cfg.Limit();
    && (log.account.failedCount < m ==> log.account.lockedUntil.None?)
    && (log.account.failedCount >= m ==> f != [] && log.account.lockedUntil == Some(f[|f| - 1] + cfg.lockout))
    && (f != [] ==> f[|f| - 1] <= log.clock)
  }

  ghost predicate Inv(cfg: Config, log: Log) {
    log.account.failedCount == |log.failures| && Spaced(cfg, log.failures) && LocksLast(cfg, log)
  }

  lemma {:induction false} NextInv(cfg: Config, log: Log, at: Attempt)
    requires Inv(cfg, log) && log.clock <= at.now
    ensures Inv(cfg, NextSerial(cfg, log, at))
  {
  }

  lemma {:induction false} SerialInv(cfg: Config, t0: real, attempts: seq<Attempt>)
    requires SerialLegal(cfg, t0, attempts)
    ensures Inv(cfg, SerialRun(cfg, t0, attempts))
  {
    hide NextSerial, Inv;
    if attempts == [] {
      InitInv(cfg, t0);
    } else {
      var n := |attempts| - 1;
      SerialInv(cfg, t0, attempts[..n]);
      NextInv(cfg, SerialRun(cfg, t0, attempts[..n]), attempts[n]);
    }
  }

  lemma {:induction false} InitInv(cfg: Config, t0: real)
    ensures Inv(cfg, Log(Unlocked, t0, []))
  {
  }

  // ----- attempts that overlap -----

  /** An attempt between its read and its write: the count it read, and how many writes there had been. */
  datatype Pending = Pending(count: nat, version: nat)

  datatype World = World(account: Account, clock: real, failures: seq<real>, pending: seq<Pending>, writes: nat)

  datatype Event = Read(now: real) | Write(k: nat, at: Attempt)

  predicate Enabled(w: World, e: Event) {
    match e
    case Read(now) => w.clock <= now
    case Write(k, at) => k < |w.pending| && w.clock <= at.now
  }

  function Next(cfg: Config, w: World, e: Event): World {
    match e
    case Read(now) =>
      (match Opened(w.account, now)
       case None => w.(clock := now)
       case Some(count) => w.(clock := now, pending := w.pending + [Pending(count, w.writes)]))
    case Write(k, at) =>
      if k >= |w.pending| then w else
      World(Written(cfg, w.pending[k].count, at), at.now,
            if at.correct then [] else w.failures + [at.now],
            Without(w.pending, k), w.writes + 1)
  }

  /** The events are enabled one after the other. */
  ghost predicate Legal(cfg: Config, t0: real, events: seq<Event>) {
    events == [] ||
    var n := |events| - 1;
    Legal(cfg, t0, events[..n]) && Enabled(Run(cfg, t0, events[..n]), events[n])
  }

  function Run(cfg: Config, t0: real, events: seq<Event>): World {
    if events == [] then World(Unlocked, t0, [], [], 0)
    else
      var n := |events| - 1;
      Next(cfg, Run(cfg, t0, events[..n]), events[n])
  }

  /** What a failed attempt writes back still starts from the stored count. */
  predicate Current(w: World, e: Event)
    requires Enabled(w, e)
  {
    e.Write? && !e.at.correct ==> w.pending[e.k].count == w.account.failedCount
  }

  /** No write of another attempt falls between the read and the write of this one. */
  predicate Fresh(w: World, e: Event)
    requires Enabled(w, e)
  {
    e.Write? ==> w.pending[e.k].version == w.writes
  }

  ghost predicate AllCurrent(cfg: Config, t0: real, events: seq<Event>)
    requires Legal(cfg, t0, events)
  {
    events == [] ||
    var n := |events| - 1;
    AllCurrent(cfg, t0, events[..n]) && Current(Run(cfg, t0, events[..n]), events[n])
  }

  ghost predicate AllFresh(cfg: Config, t0: real, events: seq<Event>)
    requires Legal(cfg, t0, events)
  {
    events == [] ||
    var n := |events| - 1;
    AllFresh(cfg, t0, events[..n]) && Fresh(Run(cfg, t0, events[..n]), events[n])
  }

  /** The counter counts the failed checks since the last success. */
  predicate Exact(w: World) {
    w.account.failedCount == |w.failures|
  }

  /** ... now and at every earlier moment of the run. */
  ghost predicate AlwaysExact(cfg: Config, t0: real, events: seq<Event>)
    requires Legal(cfg, t0, events)
  {
    Exact(Run(cfg, t0, events)) && (events == [] || AlwaysExact(cfg, t0, events[..|events| - 1]))
  }

  lemma {:induction false} ExactStepIff(cfg: Config, w: World, e: Event)
    requires Enabled(w, e) && Exact(w)
    ensures Exact(Next(cfg, w, e)) <==> Current(w, e)
  {
  }

  /** The counter is right throughout a run exactly if every failed attempt writes over the count it read. */
  lemma {:induction false} CounterExactIff(cfg: Config, t0: real, events: seq<Event>)
    requires Legal(cfg, t0, events)
    ensures AlwaysExact(cfg, t0, events) <==> AllCurrent(cfg, t0, events)
  {
    hide Next, Exact, Current;
    if events == [] {
      assert Exact(World(Unlocked, t0, [], [], 0)) by { StartExact(t0); }
    } else {
      var n := |events| - 1;
      CounterExactIff(cfg, t0, events[..n]);
      if AlwaysExact(cfg, t0, events[..n]) {
        ExactNow(cfg, t0, events[..n]);
        ExactStepIff(cfg, Run(cfg, t0, events[..n]), events[n]);
      }
    }
  }

  lemma {:induction false} StartExact(t0: real)
    ensures Exact(World(Unlocked, t0, [], [], 0))
  {
  }

  lemma {:induction false} ExactNow(cfg: Config, t0: real, events: seq<Event>)
    requires Legal(cfg, t0, events) && AlwaysExact(cfg, t0, events)
    ensures Exact(Run(cfg, t0, events))
  {
  }

  ghost predicate NoSuccess(events: seq<Event>) {
    forall i :: 0 <= i < |events| && events[i].Write? ==> !events[i].at.correct
  }

  /** While only failures are written, in step, the count is the number of writes. */
  ghost predicate InStep(w: World) {
    && w.account.failedCount == w.writes
    && forall i :: 0 <= i < |w.pending| ==> w.pending[i].count == w.pending[i].version
  }

  lemma {:induction false} InStepNext(cfg: Config, w: World, e: Event)
    requires Enabled(w, e) && InStep(w) && (e.Write? ==> !e.at.correct)
    ensures Current(w, e) <==> Fresh(w, e)
    ensures Fresh(w, e) ==> InStep(Next(cfg, w, e))
  {
    if e.Write? && Fresh(w, e) {
      var p, w' := w.pending, Next(cfg, w, e);
      assert w'.pending == p[..e.k] + p[e.k + 1..];
    }
  }

  lemma {:induction false} CurrentIffFresh(cfg: Config, t0: real, events: seq<Event>)
    requires Legal(cfg, t0, events) && NoSuccess(events)
    ensures AllCurrent(cfg, t0, events) <==> AllFresh(cfg, t0, events)
    ensures AllFresh(cfg, t0, events) ==> InStep(Run(cfg, t0, events))
  {
    hide Next, Current, Fresh, InStep;
    if events == [] {
      StartInStep(t0);
    } else {
      var n := |events| - 1;
      assert forall i :: 0 <= i < n ==> events[..n][i] == events[i];
      CurrentIffFresh(cfg, t0, events[..n]);
      if AllFresh(cfg, t0, events[..n]) {
        InStepNext(cfg, Run(cfg, t0, events[..n]), events[n]);
      }
    }
  }

  lemma {:induction false} StartInStep(t0: real)
    ensures InStep(World(Unlocked, t0, [], [], 0))
  {
  }

  /**
   While nobody succeeds, the counter is right throughout a run exactly if no write falls
   between another attempt's read and its write.
   */
  lemma {:induction false} CounterExactIffUndisturbed(cfg: Config, t0: real, events: seq<Event>)
    requires Legal(cfg, t0, events) && NoSuccess(events)
    ensures AlwaysExact(cfg, t0, events) <==> AllFresh(cfg, t0, events)
  {
    CounterExactIff(cfg, t0, events);
    CurrentIffFresh(cfg, t0, events);
  }

  // ----- undisturbed attempts keep the bound -----

  function LogOf(w: World): Log {
    Log(w.account, w.clock, w.failures)
  }

  /** An attempt that nothing has disturbed so far read the stored count, and found no lock in force. */
  ghost predicate Undisturbed(w: World) {
    forall i :: 0 <= i < |w.pending| ==>
      && w.pending[i].version <= w.writes
      && (w.pending[i].version == w.writes ==>
            w.pending[i].count == w.account.failedCount && !IsLocked(w.account, w.clock))
  }

  lemma {:induction false} UndisturbedNext(cfg: Config, w: World, e: Event)
    requires Enabled(w, e) && Undisturbed(w)
    ensures Undisturbed(Next(cfg, w, e))
  {
    if e.Write? {
      var p, w' := w.pending, Next(cfg, w, e);
      forall i | 0 <= i < |w'.pending| ensures w'.pending[i].version < w'.writes {
        assert w'.pending[i] == if i < e.k then p[i] else p[i + 1];
      }
    }
  }

  /** A failed attempt writes over the count it read, and while no lock is in force. */
  predicate Clean(w: World, e: Event)
    requires Enabled(w, e)
  {
    e.Write? && !e.at.correct ==>
      w.pending[e.k].count == w.account.failedCount && !IsLocked(w.account, e.at.now)
  }

  ghost predicate AllClean(cfg: Config, t0: real, events: seq<Event>)
    requires Legal(cfg, t0, events)
  {
    events == [] ||
    var n := |events| - 1;
    AllClean(cfg, t0, events[..n]) && Clean(Run(cfg, t0, events[..n]), events[n])
  }

  lemma {:induction false} FreshIsClean(cfg: Config, t0: real, events: seq<Event>)
    requires Legal(cfg, t0, events)
    ensures Undisturbed(Run(cfg, t0, events))
    ensures AllFresh(cfg, t0, events) ==> AllClean(cfg, t0, events)
  {
    hide Next;
    if events == [] {
      assert Undisturbed(World(Unlocked, t0, [], [], 0)) by { StartUndisturbed(t0); }
    } else {
      var n := |events| - 1;
      FreshIsClean(cfg, t0, events[..n]);
      UndisturbedNext(cfg, Run(cfg, t0, events[..n]), events[n]);
    }
  }

  lemma {:induction false} StartUndisturbed(t0: real)
    ensures Undisturbed(World(Unlocked, t0, [], [], 0))
  {
  }

  /** What the counter and the lock are for. */
  ghost predicate Throttled(cfg: Config, w: World) {
    w.account.failedCount == |w.failures| && Spaced(cfg, w.failures)
  }

  /** ... now and at every earlier moment of the run. */
  ghost predicate AlwaysThrottled(cfg: Config, t0: real, events: seq<Event>)
    requires Legal(cfg, t0, events)
  {
    Throttled(cfg, Run(cfg, t0, events)) && (events == [] || AlwaysThrottled(cfg, t0, events[..|events| - 1]))
  }

  lemma {:induction false} LocksLastNext(cfg: Config, w: World, e: Event)
    requires Enabled(w, e) && LocksLast(cfg, LogOf(w))
    ensures LocksLast(cfg, LogOf(Next(cfg, w, e)))
  {
  }

  lemma {:induction false} ThrottledStepIff(cfg: Config, w: World, e: Event)
    requires Enabled(w, e) && LocksLast(cfg, LogOf(w)) && Throttled(cfg, w)
    ensures Throttled(cfg, Next(cfg, w, e)) <==> Clean(w, e)
  {
    if e.Write? && !e.at.correct {
      var f := w.failures;
      var g := f + [e.at.now];
      assert forall i :: 0 <= i < |f| ==> g[i] == f[i];
      assert cfg.Limit() <= |f| ==> (Spaced(cfg, g) <==> f[|f| - 1] + cfg.lockout <= g[|f|]);
    }
  }

  /**
   The counter is the number of failed checks since the last success and, from the limit on,
   these are at least a lockout period apart, throughout a run, exactly if every failed
   attempt writes over the count it read and while no lock is in force.
   */
  lemma {:induction false} ThrottledIff(cfg: Config, t0: real, events: seq<Event>)
    requires Legal(cfg, t0, events)
    ensures LocksLast(cfg, LogOf(Run(cfg, t0, events)))
    ensures AlwaysThrottled(cfg, t0, events) <==> AllClean(cfg, t0, events)
  {
    hide Next, LocksLast, Throttled, Clean;
    if events == [] {
      StartThrottled(cfg, t0);
    } else {
      var n := |events| - 1;
      ThrottledIff(cfg, t0, events[..n]);
      var w := Run(cfg, t0, events[..n]);
      LocksLastNext(cfg, w, events[n]);
      if AlwaysThrottled(cfg, t0, events[..n]) {
        ThrottledNow(cfg, t0, events[..n]);
        ThrottledStepIff(cfg, w, events[n]);
      }
    }
  }

  lemma {:induction false} StartThrottled(cfg: Config, t0: real)
    ensures var w := World(Unlocked, t0, [], [], 0); LocksLast(cfg, LogOf(w)) && Throttled(cfg, w)
  {
  }

  lemma {:induction false} ThrottledNow(cfg: Config, t0: real, events: seq<Event>)
    requires Legal(cfg, t0, events) && AlwaysThrottled(cfg, t0, events)
    ensures Throttled(cfg, Run(cfg, t0, events))
  {
  }

  /**
   If every failed attempt writes over the count it read and while no lock is in force: since
   the last success, the number of failed checks by the time `t` is at most the limit plus one
   for every whole lockout period since the first locking failure. The counter survives the
   lock, so each period admits exactly one further guess.
   */
  lemma {:induction false} FailureBound(cfg: Config, t0: real, events: seq<Event>, t: real)
    requires Legal(cfg, t0, events) && AllClean(cfg, t0, events)
    requires 0.0 < cfg.lockout && Run(cfg, t0, events).clock <= t
    ensures var f, m := Run(cfg, t0, events).failures, cfg.Limit();
            |f| >= m ==> |f| <= m + ((t - f[m - 1]) / cfg.lockout).Floor
  {
    ThrottledIff(cfg, t0, events);
    ThrottledNow(cfg, t0, events);
    BoundFromInv(cfg, LogOf(Run(cfg, t0, events)), t);
  }

  /** Attempts of which no write falls between another's read and write are of that kind. */
  lemma {:induction false} UndisturbedFailureBound(cfg: Config, t0: real, events: seq<Event>, t: real)
    requires Legal(cfg, t0, events) && AllFresh(cfg, t0, events)
    requires 0.0 < cfg.lockout && Run(cfg, t0, events).clock <= t
    ensures var f, m := Run(cfg, t0, events).failures, cfg.Limit();
            |f| >= m ==> |f| <= m + ((t - f[m - 1]) / cfg.lockout).Floor
  {
    FreshIsClean(cfg, t0, events);
    FailureBound(cfg, t0, events, t);
  }

  lemma {:induction false} SpacedSum(cfg: Config, f: seq<real>, i: nat)
    requires Spaced(cfg, f) && cfg.Limit() - 1 <= i < |f|
    ensures f[cfg.Limit() - 1] + (i + 1 - cfg.Limit()) as real * cfg.lockout <= f[i]
  {
    if i == cfg.Limit() - 1 {
      assert 0.0 * cfg.lockout == 0.0;
    } else {
      SpacedSum(cfg, f, i - 1);
      assert (i + 1 - cfg.Limit()) as real * cfg.lockout == (i - cfg.Limit()) as real * cfg.lockout + cfg.lockout;
    }
  }

  lemma {:induction false} BoundFromInv(cfg: Config, log: Log, t: real)
    requires 0.0 < cfg.lockout && Inv(cfg, log) && log.clock <= t
    ensures |log.failures| >= cfg.Limit() ==>
              |log.failures| <= cfg.Limit() + ((t - log.failures[cfg.Limit() - 1]) / cfg.lockout).Floor
  {
    var f, m := log.failures, cfg.Limit();
    if |f| >= m {
      SpacedSum(cfg, f, |f| - 1);
      FloorAtLeast(|f| - m, t - f[m - 1], cfg.lockout);
    }
  }

  lemma {:induction false} FloorAtLeast(k: nat, x: real, d: real)
    requires 0.0 < d && k as real * d <= x
    ensures k <= (x / d).Floor
  {
    assert x / d * d == x;
    assert k as real <= x / d;
  }

  // ----- serial attempts are runs of that kind -----

  /** The reads and writes of attempts that follow one another. */
  function Serial(cfg: Config, t0: real, attempts: seq<Attempt>): seq<Event> {
    if attempts == [] then []
    else
      var n := |attempts| - 1;
      var at := attempts[n];
      Serial(cfg, t0, attempts[..n]) + [Read(at.now)]
      + if IsLocked(SerialRun(cfg, t0, attempts[..n]).account, at.now) then [] else [Write(0, at)]
  }

  lemma {:induction false} OneMore(cfg: Config, t0: real, events: seq<Event>, e: Event)
    requires Legal(cfg, t0, events) && Enabled(Run(cfg, t0, events), e)
    ensures Legal(cfg, t0, events + [e])
    ensures Run(cfg, t0, events + [e]) == Next(cfg, Run(cfg, t0, events), e)
    ensures AllFresh(cfg, t0, events) && Fresh(Run(cfg, t0, events), e) ==> AllFresh(cfg, t0, events + [e])
  {
    hide Next, Fresh;
    assert (events + [e])[..|events|] == events;
  }

  lemma {:induction false} SerialIsUndisturbed(cfg: Config, t0: real, attempts: seq<Attempt>)
    requires SerialLegal(cfg, t0, attempts)
    ensures var events, log := Serial(cfg, t0, attempts), SerialRun(cfg, t0, attempts);
            && Legal(cfg, t0, events) && AllFresh(cfg, t0, events)
            && LogOf(Run(cfg, t0, events)) == log && Run(cfg, t0, events).pending == []
  {
    hide Legal, AllFresh, Run;
    if attempts == [] {
      EmptyRun(cfg, t0);
    } else {
      var n := |attempts| - 1;
      var at := attempts[n];
      SerialIsUndisturbed(cfg, t0, attempts[..n]);
      var es := Serial(cfg, t0, attempts[..n]);
      var w := Run(cfg, t0, es);
      OneMore(cfg, t0, es, Read(at.now));
      if !IsLocked(w.account, at.now) {
        OneMore(cfg, t0, es + [Read(at.now)], Write(0, at));
      } else {
        assert es + [Read(at.now)] + [] == es + [Read(at.now)];
      }
    }
  }

  lemma {:induction false} EmptyRun(cfg: Config, t0: real)
    ensures Legal(cfg, t0, []) && AllFresh(cfg, t0, [])
    ensures Run(cfg, t0, []) == World(Unlocked, t0, [], [], 0)
  {
  }

  // ----- what overlapping attempts do -----

  const BadGuess := Write(0, Attempt(0.0, false))

  lemma {:induction false} AllRead(cfg: Config, n: nat)
    ensures Legal(cfg, 0.0, Copies(Read(0.0), n))
    ensures Run(cfg, 0.0, Copies(Read(0.0), n)) == World(Unlocked, 0.0, [], Copies(Pending(0, 0), n), 0)
  {
    hide Legal, AllFresh, Run;
    if n == 0 {
      EmptyRun(cfg, 0.0);
    } else {
      AllRead(cfg, n - 1);
      OneMore(cfg, 0.0, Copies(Read(0.0), n - 1), Read(0.0));
    }
  }

  lemma {:induction false} SomeWritten(cfg: Config, n: nat, k: nat)
    requires k <= n
    ensures var events := Copies(Read(0.0), n) + Copies(BadGuess, k);
            && Legal(cfg, 0.0, events)
            && Run(cfg, 0.0, events)
               == World(if k == 0 then Unlocked else Written(cfg, 0, Attempt(0.0, false)), 0.0,
                        Copies(0.0, k), Copies(Pending(0, 0), n - k), k)
  {
    hide Legal, AllFresh, Run;
    var all := Copies(Read(0.0), n);
    if k == 0 {
      AllRead(cfg, n);
      assert all + [] == all;
    } else {
      SomeWritten(cfg, n, k - 1);
      var events := all + Copies(BadGuess, k - 1);
      OneMore(cfg, 0.0, events, BadGuess);
      assert all + Copies(BadGuess, k) == events + [BadGuess];
      assert Copies(Pending(0, 0), n - k + 1)[..0] + Copies(Pending(0, 0), n - k + 1)[1..] == Copies(Pending(0, 0), n - k);
    }
  }

  /**
   Attempts that all read before any writes are counted once: for every `n` a run with `n`
   failed checks at one instant, a stored count of 1 and, for any limit above 1, no lock.
   */
  lemma {:induction false} OverlapCountsOnce(cfg: Config, n: nat) returns (events: seq<Event>)
    requires n > 0
    ensures Legal(cfg, 0.0, events)
    ensures var w := Run(cfg, 0.0, events);
            && w.failures == Copies(0.0, n) && w.clock == 0.0 && w.account.failedCount == 1
            && (cfg.Limit() > 1 ==> w.account.lockedUntil == None)
  {
    SomeWritten(cfg, n, n);
    events := Copies(Read(0.0), n) + Copies(BadGuess, n);
  }

  // ----- the bound is reached -----

  /** `Limit` bad guesses at time 0, then one at the end of every lockout period. */
  function Guesses(cfg: Config, n: nat): seq<Attempt> {
    if n == 0 then [] else Guesses(cfg, n - 1) + [Attempt(GuessTime(cfg, n), false)]
  }

  function GuessTime(cfg: Config, n: nat): real {
    if n <= cfg.Limit() then 0.0 else (n - cfg.Limit()) as real * cfg.lockout
  }

  lemma {:induction false} GuessesAllCount(cfg: Config, n: nat)
    requires 0.0 < cfg.lockout
    ensures SerialLegal(cfg, 0.0, Guesses(cfg, n))
    ensures var log := SerialRun(cfg, 0.0, Guesses(cfg, n));
            && |log.failures| == n && log.clock == GuessTime(cfg, n)
            && (n > 0 ==> log.failures[n - 1] == GuessTime(cfg, n))
            && (n >= cfg.Limit() ==> log.failures[cfg.Limit() - 1] == 0.0)
  {
    hide GuessTime, NextSerial, Inv, SerialRun, SerialLegal;
    if n == 0 {
      SerialStart(cfg, 0.0);
      GuessTimes(cfg, 0);
    } else {
      GuessesAllCount(cfg, n - 1);
      SerialMore(cfg, 0.0, Guesses(cfg, n - 1), Attempt(GuessTime(cfg, n), false));
      var log := SerialRun(cfg, 0.0, Guesses(cfg, n - 1));
      SerialInv(cfg, 0.0, Guesses(cfg, n - 1));
      GuessTimes(cfg, n);
      GuessTimes(cfg, n - 1);
      NextGuess(cfg, log, n);
    }
  }

  lemma {:induction false} SerialStart(cfg: Config, t0: real)
    ensures SerialLegal(cfg, t0, []) && SerialRun(cfg, t0, []) == Log(Unlocked, t0, [])
  {
  }

  lemma {:induction false} SerialMore(cfg: Config, t0: real, attempts: seq<Attempt>, at: Attempt)
    ensures SerialRun(cfg, t0, attempts + [at]) == NextSerial(cfg, SerialRun(cfg, t0, attempts), at)
    ensures SerialLegal(cfg, t0, attempts + [at]) <==>
              SerialLegal(cfg, t0, attempts) && SerialRun(cfg, t0, attempts).clock <= at.now
  {
    hide NextSerial;
    assert (attempts + [at])[..|attempts|] == attempts;
  }

  lemma {:induction false} NextGuess(cfg: Config, log: Log, n: nat)
    requires 0.0 < cfg.lockout && n > 0 && Inv(cfg, log) && |log.failures| == n - 1
    requires n > 1 ==> log.failures[n - 2] == GuessTime(cfg, n - 1)
    ensures var t := GuessTime(cfg, n);
            NextSerial(cfg, log, Attempt(t, false)).failures == log.failures + [t]
    ensures NextSerial(cfg, log, Attempt(GuessTime(cfg, n), false)).clock == GuessTime(cfg, n)
  {
    hide GuessTime;
    GuessTimes(cfg, n);
  }

  lemma {:induction false} GuessTimes(cfg: Config, n: nat)
    requires 0.0 < cfg.lockout
    ensures 0.0 <= GuessTime(cfg, n)
    ensures n <= cfg.Limit() ==> GuessTime(cfg, n) == 0.0
    ensures n > cfg.Limit() ==> GuessTime(cfg, n) == GuessTime(cfg, n - 1) + cfg.lockout
  {
    if n > cfg.Limit() {
      var k := n - 1 - cfg.Limit();
      assert (k + 1) as real * cfg.lockout == k as real * cfg.lockout + cfg.lockout;
      assert k as real * cfg.lockout >= 0.0;
    }
  }

  /** For every configuration and every number of periods, that run meets the bound with equality. */
  lemma {:induction false} FailureBoundIsReached(cfg: Config, k: nat)
    requires 0.0 < cfg.lockout
    ensures var m := cfg.Limit();
            var g := Guesses(cfg, m + k);
            var log := SerialRun(cfg, 0.0, g);
            && SerialLegal(cfg, 0.0, g) && |log.failures| == m + k
            && |log.failures| == m + ((log.clock - log.failures[m - 1]) / cfg.lockout).Floor
  {
    hide SerialRun, SerialLegal, NextSerial;
    var m := cfg.Limit();
    GuessesAllCount(cfg, m + k);
    assert GuessTime(cfg, m + k) == k as real * cfg.lockout by {
      if k == 0 {
        assert 0.0 * cfg.lockout == 0.0;
      }
    }
    assert k as real * cfg.lockout / cfg.lockout == k as real;
  }
}
