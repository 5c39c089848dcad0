/**
 The circuit breaker: three states, and calls that overlap, so that a call admitted in one
 state can complete in another. Every lock-protected section of `call`, `_on_success`,
 `_on_failure` and `reset` is one step; the wrapped function runs between two steps.
 */
module CircuitBreaker {
  import opened Common

  datatype State = Closed | Open | HalfOpen

  datatype Config = Config(failureThreshold: int, recoveryTimeout: real, halfOpenMaxCalls: int) {
    function Trials(): nat {
      if halfOpenMaxCalls < 0 then 0 else halfOpenMaxCalls
    }
  }

  datatype Breaker = Breaker(
    state: State, failureCount: nat, successCount: nat,
    lastFailureTime: Option<real>, halfOpenCalls: nat)

  const Fresh := Breaker(Closed, 0, 0, None, 0)

  predicate RecoveryDue(cfg: Config, b: Breaker, now: real) {
    b.lastFailureTime.Some? && now - b.lastFailureTime.value > cfg.recoveryTimeout
  }

  /** Whether a call that arrives now is let through. */
  predicate Admits(cfg: Config, b: Breaker, now: real) {
    match b.state
    case Closed => true
    case Open => RecoveryDue(cfg, b, now)
    case HalfOpen => b.halfOpenCalls < cfg.halfOpenMaxCalls
  }

  function Admitted(cfg: Config, b: Breaker, now: real): Breaker {
    if !Admits(cfg, b, now) then b
    else match b.state
    case Closed => b
    case Open => b.(state := HalfOpen, halfOpenCalls := 0)
    case HalfOpen => b.(halfOpenCalls := b.halfOpenCalls + 1)
  }

  function Succeeded(cfg: Config, b: Breaker): Breaker {
    var b' := b.(failureCount := 0, successCount := b.successCount + 1);
    if b.state == HalfOpen && b'.successCount >= cfg.halfOpenMaxCalls
    then b'.(state := Closed, halfOpenCalls := 0)
    else b'
  }

  function Failed(cfg: Config, b: Breaker, now: real): Breaker {
    var b' := b.(failureCount := b.failureCount + 1, successCount := 0, lastFailureTime := Some(now));
    if b.state == HalfOpen || b'.failureCount >= cfg.failureThreshold then b'.(state := Open) else b'
  }

  function WasReset(b: Breaker): Breaker {
    Fresh.(lastFailureTime := b.lastFailureTime)
  }

  class CircuitBreaker {
    const cfg: Config
    var state: State
    var failureCount: nat
    var successCount: nat
    var lastFailureTime: Option<real>
    var halfOpenCalls: nat

    constructor (cfg: Config)
      ensures this.cfg == cfg && Snapshot() == Fresh
    {
      this.cfg := cfg;
      state, failureCount, successCount := Closed, 0, 0;
      lastFailureTime, halfOpenCalls := None, 0;
    }

    function Snapshot(): Breaker
      reads this
    {
      Breaker(state, failureCount, successCount, lastFailureTime, halfOpenCalls)
    }

    /** The first locked section of `call`; false stands for CircuitBreakerOpenError. */
    method TryEnter(now: real) returns (admitted: bool)
      requires state == Open ==> lastFailureTime.Some?
      modifies this
      ensures admitted == Admits(cfg, old(Snapshot()), now)
      ensures Snapshot() == Admitted(cfg, old(Snapshot()), now)
    {
      if state == Open {
        if now - lastFailureTime.value > cfg.recoveryTimeout {
          state := HalfOpen;
          halfOpenCalls := 0;
        } else {
          return false;
        }
      } else if state == HalfOpen {
        if halfOpenCalls >= cfg.halfOpenMaxCalls {
          return false;
        }
        halfOpenCalls := halfOpenCalls + 1;
      }
      return true;
    }

    method OnSuccess()
      modifies this
      ensures Snapshot() == Succeeded(cfg, old(Snapshot()))
    {
      failureCount := 0;
      successCount := successCount + 1;
      if state == HalfOpen {
        if successCount >= cfg.halfOpenMaxCalls {
          state := Closed;
          halfOpenCalls := 0;
        }
      }
    }

    method OnFailure(now: real)
      modifies this
      ensures Snapshot() == Failed(cfg, old(Snapshot()), now)
      ensures state == Open ==> lastFailureTime.Some?
    {
      failureCount := failureCount + 1;
      successCount := 0;
      lastFailureTime := Some(now);
      if state == HalfOpen {
        state := Open;
      } else if failureCount >= cfg.failureThreshold {
        state := Open;
      }
    }

    method Reset()
      modifies this
      ensures Snapshot() == WasReset(old(Snapshot()))
    {
      failureCount := 0;
      successCount := 0;
      state := Closed;
      halfOpenCalls := 0;
    }
  }

  // ----- runs of overlapping calls -----

  datatype Done = Ok | Bad

  /**
   The breaker with the calls that are still running. A running call is known by the
   half-open episode that admitted it, or by 0 if the breaker was closed. `admitted`,
   `succeeded` and `vanished` count the calls of the latest episode, `stale` the successes of
   other calls that its success count includes; `recent` lists the completions since the last
   reset, `failures` the times of all failures.
   */
  datatype World = World(
    b: Breaker, clock: real, inFlight: multiset<nat>, episode: nat,
    admitted: nat, succeeded: nat, vanished: nat, stale: nat,
    recent: seq<Done>, failures: seq<real>)

  function Init(t0: real): World {
    World(Fresh, t0, multiset{}, 0, 0, 0, 0, 0, [], [])
  }

  /** `Vanish` is a call that ends in an exception that is not the expected one, or is cancelled. */
  datatype Event = Enter(now: real) | Succeed(tag: nat) | Fail(tag: nat, at: real) | Vanish(tag: nat) | Reset

  predicate Enabled(w: World, e: Event) {
    match e
    case Enter(now) => w.clock <= now
    case Succeed(tag) => tag in w.inFlight
    case Fail(tag, at) => tag in w.inFlight && w.clock <= at
    case Vanish(tag) => tag in w.inFlight
    case Reset => true
  }

  function Entered(cfg: Config, w: World, now: real): World {
    var w' := w.(b := Admitted(cfg, w.b, now), clock := now);
    if !Admits(cfg, w.b, now) then w'
    else match w.b.state
    case Closed => w'.(inFlight := w.inFlight + multiset{0})
    case Open =>
      w'.(episode := w.episode + 1, inFlight := w.inFlight + multiset{w.episode + 1},
          admitted := 1, succeeded := 0, vanished := 0, stale := w.b.successCount)
    case HalfOpen =>
      w'.(inFlight := w.inFlight + multiset{w.episode}, admitted := w.admitted + 1)
  }

  function Next(cfg: Config, w: World, e: Event): World {
    match e
    case Enter(now) => Entered(cfg, w, now)
    case Succeed(tag) =>
      w.(b := Succeeded(cfg, w.b), inFlight := w.inFlight - multiset{tag},
         succeeded := if tag == w.episode then w.succeeded + 1 else w.succeeded,
         stale := if tag == w.episode then w.stale else w.stale + 1,
         recent := w.recent + [Ok])
    case Fail(tag, at) =>
      w.(b := Failed(cfg, w.b, at), clock := at, inFlight := w.inFlight - multiset{tag},
         recent := w.recent + [Bad], failures := w.failures + [at])
    case Vanish(tag) =>
      w.(inFlight := w.inFlight - multiset{tag},
         vanished := if tag == w.episode then w.vanished + 1 else w.vanished)
    case Reset => w.(b := WasReset(w.b), recent := [])
  }

  /** Reachable from a fresh breaker by the given events, each enabled in its turn. */
  ghost predicate Reaches(cfg: Config, t0: real, events: seq<Event>, w: World) {
    if events == [] then w == Init(t0)
    else
      var n := |events| - 1;
      exists v :: Reaches(cfg, t0, events[..n], v) && Enabled(v, events[n]) && w == Next(cfg, v, events[n])
  }

  function Trailing(s: seq<Done>, d: Done): nat {
    if s == [] || s[|s| - 1] != d then 0 else 1 + Trailing(s[..|s| - 1], d)
  }

  ghost predicate Counted(cfg: Config, w: World) {
    && (w.b.state == Closed ==> w.b.failureCount == 0 || w.b.failureCount < cfg.failureThreshold)
    && w.b.failureCount == Trailing(w.recent, Bad)
    && w.b.successCount == Trailing(w.recent, Ok)
  }

  ghost predicate Timed(w: World) {
    && (w.b.state == Open ==> w.b.lastFailureTime.Some?)
    && (w.failures != [] ==> w.b.lastFailureTime.Some?)
    && (w.b.lastFailureTime.Some? ==> w.b.lastFailureTime.value <= w.clock)
    && (forall i :: 0 <= i < |w.failures| ==> w.failures[i] <= w.b.lastFailureTime.value)
    && w.b.lastFailureTime == if w.failures == [] then None else Some(w.failures[|w.failures| - 1])
  }

  ghost predicate Budgeted(cfg: Config, w: World) {
    && (forall e :: e in w.inFlight ==> e <= w.episode)
    && w.admitted <= cfg.Trials() + 1
    && (w.b.state == HalfOpen ==>
          && w.admitted == w.b.halfOpenCalls + 1
          && w.inFlight[w.episode] + w.succeeded + w.vanished == w.admitted
          && w.b.successCount == w.succeeded + w.stale
          && (w.succeeded > 0 ==> w.b.successCount < cfg.halfOpenMaxCalls))
    && (w.episode == 0 ==> w.b.state != HalfOpen)
    && (w.b.state == Closed ==> w.b.halfOpenCalls == 0)
  }

  lemma {:induction false} NextCounted(cfg: Config, w: World, e: Event)
    requires Counted(cfg, w)
    ensures Counted(cfg, Next(cfg, w, e))
  {
    if e.Succeed? || e.Fail? {
      var r := Next(cfg, w, e).recent;
      assert r[..|r| - 1] == w.recent;
    }
  }

  lemma {:induction false} NextTimed(cfg: Config, w: World, e: Event)
    requires Timed(w) && Enabled(w, e)
    ensures Timed(Next(cfg, w, e))
  {
  }

  lemma {:induction false} NextBudgeted(cfg: Config, w: World, e: Event)
    requires Budgeted(cfg, w) && Enabled(w, e)
    ensures Budgeted(cfg, Next(cfg, w, e))
  {
    match e
    case Enter(now) => EnteredBudgeted(cfg, w, now);
    case Succeed(tag) =>
    case Fail(tag, at) =>
    case Vanish(tag) =>
    case Reset =>
  }

  lemma {:induction false} EnteredBudgeted(cfg: Config, w: World, now: real)
    requires Budgeted(cfg, w)
    ensures Budgeted(cfg, Entered(cfg, w, now))
  {
    if w.b.state == Open {
      assert w.inFlight[w.episode + 1] == 0;
    }
  }

  lemma {:induction false} Invariants(cfg: Config, t0: real, events: seq<Event>, w: World)
    requires Reaches(cfg, t0, events, w)
    ensures Counted(cfg, w) && Timed(w) && Budgeted(cfg, w)
  {
    hide Counted, Timed, Budgeted, Next, Enabled;
    if events == [] {
      InitInvariants(cfg, t0);
    } else {
      var n := |events| - 1;
      var v :| Reaches(cfg, t0, events[..n], v) && Enabled(v, events[n]) && w == Next(cfg, v, events[n]);
      Invariants(cfg, t0, events[..n], v);
      NextCounted(cfg, v, events[n]);
      NextTimed(cfg, v, events[n]);
      NextBudgeted(cfg, v, events[n]);
    }
  }

  lemma {:induction false} InitInvariants(cfg: Config, t0: real)
    ensures Counted(cfg, Init(t0)) && Timed(Init(t0)) && Budgeted(cfg, Init(t0))
  {
  }

  /**
   The two counters are the trailing runs of the completions since the last reset, and a
   closed breaker has never let the run of failures reach the threshold.
   */
  lemma {:induction false} CountersRefineHistory(cfg: Config, t0: real, events: seq<Event>, w: World)
    requires Reaches(cfg, t0, events, w)
    ensures w.b.failureCount == Trailing(w.recent, Bad)
    ensures w.b.successCount == Trailing(w.recent, Ok)
    ensures w.b.state == Closed && w.recent != [] && w.recent[|w.recent| - 1] == Bad ==>
              Trailing(w.recent, Bad) < cfg.failureThreshold
  {
    Invariants(cfg, t0, events, w);
  }

  /** A call let out of OPEN comes more than the recovery timeout after every failure so far, and OPEN has a failure time. */
  lemma {:induction false} RecoveryWaits(cfg: Config, t0: real, events: seq<Event>, w: World, now: real, i: nat)
    requires Reaches(cfg, t0, events, w) && w.b.state == Open
    ensures w.b.lastFailureTime.Some?
    ensures Admits(cfg, w.b, now) && i < |w.failures| ==> now - w.failures[i] > cfg.recoveryTimeout
  {
    Invariants(cfg, t0, events, w);
  }

  /** No half-open episode admits more than `half_open_max_calls + 1` calls. */
  lemma {:induction false} EpisodeBound(cfg: Config, t0: real, events: seq<Event>, w: World)
    requires Reaches(cfg, t0, events, w)
    ensures w.admitted <= cfg.Trials() + 1
  {
    Invariants(cfg, t0, events, w);
  }

  /**
   The breaker never wedges by itself: when the half-open budget is used up, at least two
   trial calls of that very episode (one if the budget is not positive) are still running
   or ended without being counted.
   */
  lemma {:induction false} NeverWedged(cfg: Config, t0: real, events: seq<Event>, w: World)
    requires Reaches(cfg, t0, events, w)
    requires w.b.state == HalfOpen && w.b.halfOpenCalls >= cfg.halfOpenMaxCalls
    ensures w.inFlight[w.episode] + w.vanished >= if cfg.halfOpenMaxCalls > 0 then 2 else 1
  {
    Invariants(cfg, t0, events, w);
  }

  /** With no call running and none vanished in the episode, the next call of a half-open breaker is admitted. */
  lemma {:induction false} IdleHalfOpenAdmits(cfg: Config, t0: real, events: seq<Event>, w: World, now: real)
    requires Reaches(cfg, t0, events, w)
    requires w.b.state == HalfOpen && w.inFlight[w.episode] == 0 && w.vanished == 0
    ensures Admits(cfg, w.b, now)
  {
    Invariants(cfg, t0, events, w);
  }

  /**
   Closing is meant to take `half_open_max_calls` successful trial calls. It does exactly if no
   success of a call admitted before the episode has been counted towards it (or one trial
   call is enough, and it is a trial call that closes).
   */
  lemma {:induction false} ClosingTakesTrialsIff(cfg: Config, t0: real, events: seq<Event>, w: World, tag: nat)
    requires Reaches(cfg, t0, events, w) && w.b.state == HalfOpen && Enabled(w, Succeed(tag))
    requires Next(cfg, w, Succeed(tag)).b.state == Closed
    ensures var w' := Next(cfg, w, Succeed(tag));
            w'.succeeded >= cfg.halfOpenMaxCalls <==>
              w'.stale == 0 || cfg.halfOpenMaxCalls <= 0 || (cfg.halfOpenMaxCalls == 1 && tag == w.episode)
  {
    Invariants(cfg, t0, events, w);
  }

  /** A call that was admitted before the breaker opened closes it while the only trial call is still running. */
  lemma {:induction false} StaleSuccessCloses()
    ensures var cfg := Config(1, 60.0, 1);
            exists events, w ::
              Reaches(cfg, 0.0, events, w) && w.b.state == Closed && w.episode == 1
              && w.succeeded == 0 && w.inFlight[1] == 1
  {
    hide Reaches;
    var cfg := Config(1, 60.0, 1);
    ReachesInit(cfg, 0.0);
    var es, w := Extended(cfg, 0.0, [], Init(0.0), Enter(0.0));
    es, w := Extended(cfg, 0.0, es, w, Enter(0.0));
    es, w := Extended(cfg, 0.0, es, w, Fail(0, 1.0));
    es, w := Extended(cfg, 0.0, es, w, Enter(62.0));
    es, w := Extended(cfg, 0.0, es, w, Succeed(0));
    assert w.b.state == Closed && w.inFlight[1] == 1;
  }

  // ----- what the breaker does, told by the events alone -----

  function Reported(e: Event): seq<Done> {
    match e
    case Succeed(_) => [Ok]
    case Fail(_, _) => [Bad]
    case _ => []
  }

  /** The completions, in order, as the events report them. */
  function Completions(events: seq<Event>): seq<Done> {
    if events == [] then []
    else
      var n := |events| - 1;
      Completions(events[..n]) + Reported(events[n])
  }

  /** Those behind the last reset. */
  function SinceReset(events: seq<Event>): seq<Done> {
    if events == [] || events[|events| - 1] == Reset then []
    else
      var n := |events| - 1;
      SinceReset(events[..n]) + Reported(events[n])
  }

  function FailureTimes(events: seq<Event>): seq<real> {
    if events == [] then []
    else
      var n := |events| - 1;
      FailureTimes(events[..n]) + if events[n].Fail? then [events[n].at] else []
  }

  lemma {:induction false} LogsAreEvents(cfg: Config, t0: real, events: seq<Event>, w: World)
    requires Reaches(cfg, t0, events, w)
    ensures w.recent == SinceReset(events) && w.failures == FailureTimes(events)
  {
    hide Next, Enabled;
    if events != [] {
      var n := |events| - 1;
      var v :| Reaches(cfg, t0, events[..n], v) && Enabled(v, events[n]) && w == Next(cfg, v, events[n]);
      LogsAreEvents(cfg, t0, events[..n], v);
      NextLogs(cfg, v, events[n]);
    }
  }

  lemma {:induction false} NextLogs(cfg: Config, w: World, e: Event)
    ensures Next(cfg, w, e).recent == if e == Reset then [] else w.recent + Reported(e)
    ensures Next(cfg, w, e).failures == w.failures + if e.Fail? then [e.at] else []
  {
    hide Admits, Admitted, Succeeded, Failed, WasReset;
  }

  /**
   The state after every event of every run. A reset closes. A failure opens a half-open
   breaker and, in any state, completes a run of `failureThreshold` failures since the last
   reset. A success closes a half-open breaker once `halfOpenMaxCalls` successes in a row
   are behind it. A call lets an open breaker half open if the last failure is more than the
   recovery timeout ago. Nothing else changes the state.
   */
  lemma {:induction false} StateByEvents(cfg: Config, t0: real, events: seq<Event>, w: World, e: Event)
    requires Reaches(cfg, t0, events, w) && Enabled(w, e)
    ensures var state, fails := w.b.state, FailureTimes(events);
            Next(cfg, w, e).b.state ==
            match e
            case Reset => Closed
            case Vanish(_) => state
            case Succeed(_) =>
              if state == HalfOpen && Trailing(SinceReset(events + [e]), Ok) >= cfg.halfOpenMaxCalls then Closed else state
            case Fail(_, _) =>
              if state == HalfOpen || Trailing(SinceReset(events + [e]), Bad) >= cfg.failureThreshold then Open else state
            case Enter(now) =>
              if state == Open && fails != [] && now - fails[|fails| - 1] > cfg.recoveryTimeout then HalfOpen else state
  {
    hide Reaches, Trailing, Budgeted, SinceReset, FailureTimes, Next, Counted, Timed;
    Invariants(cfg, t0, events, w);
    LogsAreEvents(cfg, t0, events, w);
    SinceMore(events, e);
    if e.Succeed? {
      TrailingMore(w.recent, Ok);
    } else if e.Fail? {
      TrailingMore(w.recent, Bad);
    }
    NextState(cfg, w, e);
  }

  /** One event, with the logs in place of the counters. */
  lemma {:induction false} NextState(cfg: Config, w: World, e: Event)
    requires Counted(cfg, w) && Timed(w)
    ensures var state, fails := w.b.state, w.failures;
            Next(cfg, w, e).b.state ==
            match e
            case Reset => Closed
            case Vanish(_) => state
            case Succeed(_) =>
              if state == HalfOpen && Trailing(w.recent, Ok) + 1 >= cfg.halfOpenMaxCalls then Closed else state
            case Fail(_, _) =>
              if state == HalfOpen || Trailing(w.recent, Bad) + 1 >= cfg.failureThreshold then Open else state
            case Enter(now) =>
              if state == Open && fails != [] && now - fails[|fails| - 1] > cfg.recoveryTimeout then HalfOpen else state
  {
    hide Trailing;
  }

  lemma {:induction false} SinceMore(events: seq<Event>, e: Event)
    ensures (events + [e])[..|events|] == events
    ensures e.Succeed? ==> SinceReset(events + [e]) == SinceReset(events) + [Ok]
    ensures e.Fail? ==> SinceReset(events + [e]) == SinceReset(events) + [Bad]
    ensures e.Reset? ==> SinceReset(events + [e]) == []
    ensures e.Enter? || e.Vanish? ==> SinceReset(events + [e]) == SinceReset(events)
  {
    assert (events + [e])[..|events|] == events;
  }

  lemma {:induction false} TrailingMore(s: seq<Done>, d: Done)
    ensures Trailing(s + [d], d) == Trailing(s, d) + 1
  {
    assert (s + [d])[..|s|] == s;
  }

  /** The call is let through, under its tag. */
  ghost predicate LetsIn(cfg: Config, w: World, now: real, tag: nat) {
    Next(cfg, w, Enter(now)).inFlight == w.inFlight + multiset{tag}
  }

  /**
   Who is let in, in every run: everybody while the breaker is closed; the first after the
   recovery timeout while it is open; in a half-open episode, whoever finds at most
   `halfOpenMaxCalls` calls of the episode admitted. Everybody else is turned away.
   */
  lemma {:induction false} AdmissionByEvents(cfg: Config, t0: real, events: seq<Event>, w: World, now: real)
    requires Reaches(cfg, t0, events, w) && w.clock <= now
    ensures var fails := FailureTimes(events);
            match w.b.state
            case Closed => LetsIn(cfg, w, now, 0)
            case Open =>
              if fails != [] && now - fails[|fails| - 1] > cfg.recoveryTimeout then LetsIn(cfg, w, now, w.episode + 1)
              else Next(cfg, w, Enter(now)).inFlight == w.inFlight
            case HalfOpen =>
              if w.admitted <= cfg.halfOpenMaxCalls then LetsIn(cfg, w, now, w.episode)
              else Next(cfg, w, Enter(now)).inFlight == w.inFlight
  {
    hide Reaches, FailureTimes, LetsIn, Next, Counted, Timed, Budgeted;
    Invariants(cfg, t0, events, w);
    LogsAreEvents(cfg, t0, events, w);
    Admission(cfg, w, now);
  }

  lemma {:induction false} Admission(cfg: Config, w: World, now: real)
    requires Timed(w) && Budgeted(cfg, w)
    ensures var fails := w.failures;
            match w.b.state
            case Closed => LetsIn(cfg, w, now, 0)
            case Open =>
              if fails != [] && now - fails[|fails| - 1] > cfg.recoveryTimeout then LetsIn(cfg, w, now, w.episode + 1)
              else Next(cfg, w, Enter(now)).inFlight == w.inFlight
            case HalfOpen =>
              if w.admitted <= cfg.halfOpenMaxCalls then LetsIn(cfg, w, now, w.episode)
              else Next(cfg, w, Enter(now)).inFlight == w.inFlight
  {
  }

  /** No run of failures among the completions has reached the threshold, at any moment. */
  ghost predicate Calm(cfg: Config, events: seq<Event>) {
    && Trailing(Completions(events), Bad) < Max(1, cfg.failureThreshold)
    && (events == [] || Calm(cfg, events[..|events| - 1]))
  }

  lemma {:induction false} SinceThisReset(before: seq<Event>, more: seq<Event>)
    requires Reset !in more
    ensures SinceReset(before + [Reset] + more) == Completions(more)
  {
    var all := before + [Reset] + more;
    if more == [] {
      assert all == before + [Reset];
    } else {
      var n := |more| - 1;
      assert more[n] in more;
      assert all[..|all| - 1] == before + [Reset] + more[..n];
      SinceThisReset(before, more[..n]);
    }
  }

  /**
   A reset closes the breaker, whatever state it was in, and lets every call in. It stays that
   way, over every continuation without another reset, until `failureThreshold` completions in
   a row since then have failed, and then it opens.
   */
  lemma {:induction false} ResetCloses(cfg: Config, t0: real, before: seq<Event>, more: seq<Event>, w: World)
    requires Reaches(cfg, t0, before + [Reset] + more, w) && Reset !in more
    ensures Calm(cfg, more) ==> w.b.state == Closed && forall now | w.clock <= now :: LetsIn(cfg, w, now, 0)
    ensures more != [] && Calm(cfg, more[..|more| - 1]) && !Calm(cfg, more) ==> w.b.state == Open
    decreases |more|
  {
    hide Calm, LetsIn, Next, Enabled, Trailing, Completions;
    var all := before + [Reset] + more;
    var n := |all| - 1;
    var v :| Reaches(cfg, t0, all[..n], v) && Enabled(v, all[n]) && w == Next(cfg, v, all[n]);
    StateByEvents(cfg, t0, all[..n], v, all[n]);
    assert all[..n] + [all[n]] == all;
    if more == [] {
      assert all[n] == Reset;
    } else {
      var m := |more| - 1;
      assert all[..n] == before + [Reset] + more[..m];
      assert more[m] in more;
      ResetCloses(cfg, t0, before, more[..m], v);
      SinceThisReset(before, more);
      CalmIs(cfg, more);
      CalmStep(more);
    }
    forall now | w.clock <= now && w.b.state == Closed ensures LetsIn(cfg, w, now, 0) {
      AdmissionByEvents(cfg, t0, all, w, now);
    }
  }

  lemma {:induction false} CalmIs(cfg: Config, events: seq<Event>)
    requires events != []
    ensures Calm(cfg, events) <==>
              Calm(cfg, events[..|events| - 1]) && Trailing(Completions(events), Bad) < Max(1, cfg.failureThreshold)
    ensures Calm(cfg, events[..|events| - 1]) ==>
              Trailing(Completions(events[..|events| - 1]), Bad) < Max(1, cfg.failureThreshold)
  {
    hide Trailing, Completions;
  }

  /** Only a failure makes the run of failures longer. */
  lemma {:induction false} CalmStep(events: seq<Event>)
    requires events != []
    ensures var n := |events| - 1;
            Trailing(Completions(events), Bad) > Trailing(Completions(events[..n]), Bad) ==> events[n].Fail?
    ensures events[|events| - 1].Fail? ==> Trailing(Completions(events), Bad) >= 1
  {
    var n := |events| - 1;
    var c := Completions(events[..n]);
    if events[n].Fail? {
      TrailingMore(c, Bad);
    } else if events[n].Succeed? {
      assert (c + [Ok])[|c|] == Ok;
    } else {
      assert c + [] == c;
    }
  }

  /** In particular it frees a wedged breaker: the next call is let in. */
  lemma {:induction false} ResetUnwedges(cfg: Config, t0: real, events: seq<Event>, w: World, now: real)
    requires Reaches(cfg, t0, events, w) && Wedged(cfg, w) && w.clock <= now
    ensures Next(cfg, Next(cfg, w, Reset), Enter(now)).inFlight == multiset{0}
  {
    hide Reaches;
    var es, v := Extended(cfg, t0, events, w, Reset);
    assert w.inFlight + multiset{0} == multiset{0};
    StateByEvents(cfg, t0, events, w, Reset);
    AdmissionByEvents(cfg, t0, es, v, now);
  }

  // ----- what uncounted completions do -----

  ghost predicate Wedged(cfg: Config, w: World) {
    w.b.state == HalfOpen && w.b.halfOpenCalls >= cfg.halfOpenMaxCalls && w.inFlight == multiset{}
  }

  /** The events are enabled one after the other, starting from `w`. */
  ghost predicate Playable(cfg: Config, w: World, events: seq<Event>)
    decreases |events|
  {
    events == [] || (Enabled(w, events[0]) && Playable(cfg, Next(cfg, w, events[0]), events[1..]))
  }

  function Played(cfg: Config, w: World, events: seq<Event>): World
    decreases |events|
  {
    if events == [] then w else Played(cfg, Next(cfg, w, events[0]), events[1..])
  }

  /** A wedged breaker stays so, and rejects every call, over every continuation without a `reset`. */
  lemma {:induction false} WedgeIsAbsorbing(cfg: Config, w: World, events: seq<Event>)
    requires Wedged(cfg, w) && Playable(cfg, w, events) && Reset !in events
    ensures Wedged(cfg, Played(cfg, w, events))
    ensures Played(cfg, w, events).b == w.b && Played(cfg, w, events).admitted == w.admitted
    ensures forall i :: 0 <= i < |events| ==> events[i].Enter?
    decreases |events|
  {
    if events != [] {
      var e, rest := events[0], events[1..];
      assert e in events && e.Enter?;
      forall x | x in rest ensures x in events {
      }
      WedgeIsAbsorbing(cfg, Next(cfg, w, e), rest);
      forall i | 0 <= i < |events| ensures events[i].Enter? {
        assert i == 0 || events[i] == rest[i - 1];
      }
    }
  }

  /** Failing calls open any breaker. */
  lemma {:induction false} OpenReachable(cfg: Config, k: nat) returns (events: seq<Event>, w: World)
    ensures Reaches(cfg, 0.0, events, w) && w.clock == 0.0 && w.inFlight == multiset{}
    ensures if k < Max(1, cfg.failureThreshold)
            then w.b.state == Closed && w.b.failureCount == k
            else w.b.state == Open && w.b.lastFailureTime == Some(0.0)
  {
    hide Reaches;
    if k == 0 {
      ReachesInit(cfg, 0.0);
      events, w := [], Init(0.0);
    } else {
      events, w := OpenReachable(cfg, k - 1);
      if k <= Max(1, cfg.failureThreshold) {
        events, w := Extended(cfg, 0.0, events, w, Enter(0.0));
        events, w := Extended(cfg, 0.0, events, w, Fail(0, 0.0));
      }
    }
  }

  /** `k + 1` trial calls of one episode, all running. */
  lemma {:induction false} TrialsReachable(cfg: Config, k: nat) returns (events: seq<Event>, w: World)
    requires k <= cfg.Trials()
    ensures Reaches(cfg, 0.0, events, w) && w.b.state == HalfOpen && w.b.halfOpenCalls == k
    ensures w.admitted == k + 1 && w.inFlight == multiset{}[w.episode := k + 1]
  {
    hide Reaches;
    if k == 0 {
      events, w := OpenReachable(cfg, Max(1, cfg.failureThreshold));
      events, w := Extended(cfg, 0.0, events, w, Enter(MaxReal(0.0, cfg.recoveryTimeout + 1.0)));
    } else {
      events, w := TrialsReachable(cfg, k - 1);
      events, w := Extended(cfg, 0.0, events, w, Enter(w.clock));
    }
  }

  /** All but `k` of them have ended uncounted. */
  lemma {:induction false} VanishedReachable(cfg: Config, k: nat) returns (events: seq<Event>, w: World)
    requires k <= cfg.Trials() + 1
    ensures Reaches(cfg, 0.0, events, w) && w.b.state == HalfOpen && w.b.halfOpenCalls == cfg.Trials()
    ensures w.admitted == cfg.Trials() + 1 && w.inFlight == multiset{}[w.episode := k]
    decreases cfg.Trials() + 1 - k
  {
    hide Reaches;
    if k == cfg.Trials() + 1 {
      events, w := TrialsReachable(cfg, cfg.Trials());
    } else {
      events, w := VanishedReachable(cfg, k + 1);
      events, w := Extended(cfg, 0.0, events, w, Vanish(w.episode));
    }
  }

  /**
   Whatever its settings, a breaker can be wedged by trial calls that end uncounted, in an
   episode that admits as many calls as `EpisodeBound` allows.
   */
  lemma {:induction false} WedgeReachable(cfg: Config) returns (events: seq<Event>, w: World)
    ensures Reaches(cfg, 0.0, events, w) && Wedged(cfg, w) && w.admitted == cfg.Trials() + 1
  {
    events, w := VanishedReachable(cfg, 0);
  }

  lemma {:induction false} ReachesInit(cfg: Config, t0: real)
    ensures Reaches(cfg, t0, [], Init(t0))
  {
  }

  lemma {:induction false} Extended(cfg: Config, t0: real, events: seq<Event>, v: World, e: Event)
    returns (es: seq<Event>, w: World)
    requires Reaches(cfg, t0, events, v) && Enabled(v, e)
    ensures w == Next(cfg, v, e) && Reaches(cfg, t0, es, w)
  {
    w := Next(cfg, v, e);
    es := events + [e];
    assert es[..|es| - 1] == events;
  }
}
