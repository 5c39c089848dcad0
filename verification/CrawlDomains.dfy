/**
 What the scheduler knows about a domain, told by what its handlers came to: in every
 interleaving the counters, the block and the delays follow from that log alone.
 */
module CrawlDomains {
  import opened Common
  import opened Frontier
  import opened Scheduler
  import opened Crawl

  // ----- the log -----

  predicate IsSuccess(o: Result) {
    o.Response? && 200 <= o.status < 400
  }

  predicate IsServerError(o: Result) {
    o.Response? && o.status >= 500
  }

  predicate IsThrottle(o: Result) {
    o.Response? && o.status == 429
  }

  /** What counts towards a block: a 429, a server error, a timeout. */
  predicate IsError(o: Result) {
    IsThrottle(o) || IsServerError(o) || o.TimedOut?
  }

  /** The errors of a domain since its last success. */
  function Errors(log: seq<Verdict>, d: string): nat {
    if log == [] then 0
    else
      var v, before := log[|log| - 1], Errors(log[..|log| - 1], d);
      if v.domain != d then before
      else if IsSuccess(v.o) then 0
      else if IsError(v.o) then before + 1
      else before
  }

  /** A server error that was at least the fifth error in a row, less than 300 seconds ago. */
  ghost predicate BlockedBy(log: seq<Verdict>, d: string, t: real) {
    exists i :: 0 <= i < |log| && Blocks(log, i, d) && t < log[i].at + 300.0
  }

  predicate Blocks(log: seq<Verdict>, i: nat, d: string)
    requires i < |log|
  {
    log[i].domain == d && IsServerError(log[i].o) && Errors(log[..i + 1], d) >= 5
  }

  function AnswersOf(d: string): Verdict -> nat {
    (v: Verdict) => if v.domain == d && v.o.Response? then 1 else 0
  }

  function SuccessesOf(d: string): Verdict -> nat {
    (v: Verdict) => if v.domain == d && IsSuccess(v.o) then 1 else 0
  }

  function MissesOf(d: string): Verdict -> nat {
    (v: Verdict) => if v.domain == d && !IsSuccess(v.o) then 1 else 0
  }

  function Successes(): Verdict -> nat {
    (v: Verdict) => if IsSuccess(v.o) then 1 else 0
  }

  function Misses(): Verdict -> nat {
    (v: Verdict) => if !IsSuccess(v.o) && !IsThrottle(v.o) then 1 else 0
  }

  // ----- what the scheduler holds -----

  /** The block ends when the log says so. */
  ghost predicate BlockKnown(w: World, d: string) {
    var until := StateOf(w.s, d).blockedUntil;
    forall t | w.clock <= t :: (until.Some? && t < until.value) <==> BlockedBy(w.h.verdicts, d, t)
  }

  ghost predicate CountsKnown(w: World, d: string) {
    var st, log := StateOf(w.s, d), w.h.verdicts;
    && st.consecutiveErrors == Errors(log, d)
    && st.total == Total(AnswersOf(d), log)
    && st.successful == Total(SuccessesOf(d), log)
    && st.failed == Total(MissesOf(d), log)
  }

  ghost predicate DomainKnown(w: World, d: string) {
    CountsKnown(w, d) && BlockKnown(w, d)
  }

  ghost predicate SchedulerKnown(w: World) {
    && (forall d :: DomainKnown(w, d))
    && (forall i :: 0 <= i < |w.h.verdicts| ==> w.h.verdicts[i].at <= w.clock)
    && w.s.scheduled == w.h.begun
    && w.s.completed == Total(Successes(), w.h.verdicts)
    && w.s.failed == Total(Misses(), w.h.verdicts)
  }

  // ----- a verdict -----

  lemma {:induction false} ErrorsMore(log: seq<Verdict>, v: Verdict, d: string)
    ensures Errors(log + [v], d) ==
            if v.domain != d then Errors(log, d)
            else if IsSuccess(v.o) then 0
            else if IsError(v.o) then Errors(log, d) + 1
            else Errors(log, d)
  {
    assert (log + [v])[..|log|] == log;
  }

  lemma {:induction false} BlockedMore(log: seq<Verdict>, v: Verdict, d: string, t: real)
    ensures BlockedBy(log + [v], d, t) <==>
              BlockedBy(log, d, t)
              || (v.domain == d && IsServerError(v.o) && Errors(log + [v], d) >= 5 && t < v.at + 300.0)
  {
    hide Errors;
    var all, n := log + [v], |log|;
    assert all[..n + 1] == all;
    forall i | 0 <= i < n ensures Blocks(all, i, d) <==> Blocks(log, i, d) {
      assert all[..i + 1] == log[..i + 1];
    }
    if BlockedBy(log, d, t) {
      var i :| 0 <= i < |log| && Blocks(log, i, d) && t < log[i].at + 300.0;
      assert Blocks(all, i, d) && all[i] == log[i];
    }
    if BlockedBy(all, d, t) {
      var i :| 0 <= i < |all| && Blocks(all, i, d) && t < all[i].at + 300.0;
      if i < n {
        assert Blocks(log, i, d) && all[i] == log[i];
      }
    }
    if Blocks(all, n, d) && t < v.at + 300.0 {
      assert all[n] == v;
    }
  }

  lemma {:induction false} CountsMore(w: World, u: string, o: Result, now: real, cfg: Config, d: string)
    requires CountsKnown(w, d)
    ensures CountsKnown(Stopped(cfg, w, u, o, now), d)
  {
    hide Errors, Total, Stopped, Judged, StateOf;
    var v := Verdict(cfg.domain(u), o, now, StateOf(w.s, cfg.domain(u)).crawlDelay);
    var log := w.h.verdicts;
    StoppedLog(cfg, w, u, o, now);
    StoppedState(cfg, w, u, o, now, d);
    JudgedCounts(StateOf(w.s, d), o, now);
    ErrorsMore(log, v, d);
    TotalPush(AnswersOf(d), log, v);
    TotalPush(SuccessesOf(d), log, v);
    TotalPush(MissesOf(d), log, v);
  }

  lemma {:induction false} JudgedCounts(st: DomainState, o: Result, now: real)
    ensures var st' := Judged(st, o, now);
            && st'.consecutiveErrors ==
               (if IsSuccess(o) then 0 else if IsError(o) then st.consecutiveErrors + 1 else st.consecutiveErrors)
            && st'.total == st.total + (if o.Response? then 1 else 0)
            && st'.successful == st.successful + (if IsSuccess(o) then 1 else 0)
            && st'.failed == st.failed + (if IsSuccess(o) then 0 else 1)
  {
  }

  /** What a verdict does to a domain's block. */
  lemma {:induction false} BlockAfterVerdict(w: World, u: string, o: Result, now: real, cfg: Config, d: string)
    requires CountsKnown(w, d)
    ensures var st, st' := StateOf(w.s, d), StateOf(Stopped(cfg, w, u, o, now).s, d);
            st'.blockedUntil ==
              if cfg.domain(u) == d && IsServerError(o) && Errors(Stopped(cfg, w, u, o, now).h.verdicts, d) >= 5
              then Some(now + 300.0)
              else st.blockedUntil
  {
    hide Errors, Total, Stopped, Judged, StateOf;
    CountsMore(w, u, o, now, cfg, d);
    StoppedState(cfg, w, u, o, now, d);
    JudgedBlock(StateOf(w.s, d), o, now);
  }

  lemma {:induction false} StoppedState(cfg: Config, w: World, u: string, o: Result, now: real, d: string)
    ensures StateOf(Stopped(cfg, w, u, o, now).s, d) ==
            if cfg.domain(u) == d then Judged(StateOf(w.s, d), o, now) else StateOf(w.s, d)
  {
    hide Judged, Asked, Throttled;
  }

  lemma {:induction false} JudgedBlock(st: DomainState, o: Result, now: real)
    ensures Judged(st, o, now).blockedUntil ==
            if IsServerError(o) && Judged(st, o, now).consecutiveErrors >= 5 then Some(now + 300.0) else st.blockedUntil
  {
  }

  lemma {:induction false} BlockMore(w: World, u: string, o: Result, now: real, cfg: Config, d: string)
    requires DomainKnown(w, d) && w.clock <= now
    requires forall i :: 0 <= i < |w.h.verdicts| ==> w.h.verdicts[i].at <= w.clock
    ensures BlockKnown(Stopped(cfg, w, u, o, now), d)
  {
    BlockAfterVerdict(w, u, o, now, cfg, d);
    StoppedLog(cfg, w, u, o, now);
    hide Stopped, Errors, CountsKnown, StateOf;
    var w' := Stopped(cfg, w, u, o, now);
    var v := w'.h.verdicts[|w.h.verdicts|];
    forall t | w'.clock <= t
      ensures (StateOf(w'.s, d).blockedUntil.Some? && t < StateOf(w'.s, d).blockedUntil.value)
              <==> BlockedBy(w'.h.verdicts, d, t)
    {
      BlockedMore(w.h.verdicts, v, d, t);
      assert BlockedBy(w.h.verdicts, d, t) ==> t < now + 300.0;
    }
  }

  lemma {:induction false} StoppedLog(cfg: Config, w: World, u: string, o: Result, now: real)
    ensures var w', d := Stopped(cfg, w, u, o, now), cfg.domain(u);
            && w'.h.verdicts == w.h.verdicts + [Verdict(d, o, now, StateOf(w.s, d).crawlDelay)]
            && w'.clock == now && w'.h.begun == w.h.begun
  {
    hide Asked, Ended, StateOf;
  }

  lemma {:induction false} StoppedKnown(cfg: Config, w: World, u: string, o: Result, now: real)
    requires SchedulerKnown(w) && w.clock <= now
    ensures SchedulerKnown(Stopped(cfg, w, u, o, now))
  {
    var w' := Stopped(cfg, w, u, o, now);
    StoppedLog(cfg, w, u, o, now);
    StoppedTotals(cfg, w, u, o, now);
    hide Stopped, CountsKnown, BlockKnown, Total;
    forall d ensures DomainKnown(w', d) {
      assert DomainKnown(w, d);
      CountsMore(w, u, o, now, cfg, d);
      BlockMore(w, u, o, now, cfg, d);
    }
  }

  lemma {:induction false} StoppedTotals(cfg: Config, w: World, u: string, o: Result, now: real)
    requires w.s.scheduled == w.h.begun
    requires w.s.completed == Total(Successes(), w.h.verdicts) && w.s.failed == Total(Misses(), w.h.verdicts)
    ensures var w' := Stopped(cfg, w, u, o, now);
            && w'.s.scheduled == w'.h.begun
            && w'.s.completed == Total(Successes(), w'.h.verdicts) && w'.s.failed == Total(Misses(), w'.h.verdicts)
  {
    hide Total, Asked, Judged, StateOf;
    var v := Verdict(cfg.domain(u), o, now, StateOf(w.s, cfg.domain(u)).crawlDelay);
    TotalPush(Successes(), w.h.verdicts, v);
    TotalPush(Misses(), w.h.verdicts, v);
  }

  // ----- everything else -----

  /** What a worker's beginning does to a domain: an expired block goes. */
  lemma {:induction false} BegunState(cfg: Config, w: World, u: string, now: real, d: string)
    ensures var st, st' := StateOf(w.s, d), StateOf(Started(cfg, w, u, now).s, d);
            && st' == st.(blockedUntil := st'.blockedUntil)
            && (st'.blockedUntil == st.blockedUntil
                || (st'.blockedUntil == None && st.blockedUntil.Some? && st.blockedUntil.value <= now))
  {
    hide Renamed;
  }

  lemma {:induction false} StartedKnown(cfg: Config, w: World, u: string, now: real)
    requires SchedulerKnown(w) && w.clock <= now
    ensures SchedulerKnown(Started(cfg, w, u, now))
  {
    var w' := Started(cfg, w, u, now);
    StartedFrame(cfg, w, u, now);
    StartedCounters(cfg, w, u, now);
    hide Started, Total, Errors, BlockedBy, Begun, StateOf;
    forall d ensures DomainKnown(w', d) {
      assert DomainKnown(w, d);
      BegunState(cfg, w, u, now, d);
    }
  }

  lemma {:induction false} StartedCounters(cfg: Config, w: World, u: string, now: real)
    ensures var w' := Started(cfg, w, u, now);
            && w'.clock == now && w'.s.scheduled == w.s.scheduled + 1
            && w'.s.completed == w.s.completed && w'.s.failed == w.s.failed
  {
    hide Renamed, StateOf;
  }

  /** Steps that touch neither counters nor blocks. */
  lemma {:induction false} KnownFrame(w: World, w': World)
    requires SchedulerKnown(w) && w'.h.verdicts == w.h.verdicts && w'.h.begun == w.h.begun && w.clock <= w'.clock
    requires w'.s.scheduled == w.s.scheduled && w'.s.completed == w.s.completed && w'.s.failed == w.s.failed
    requires forall d :: StateOf(w'.s, d) == StateOf(w.s, d).(crawlDelay := StateOf(w'.s, d).crawlDelay)
    ensures SchedulerKnown(w')
  {
    hide Total, Errors, BlockedBy, StateOf;
    forall d ensures DomainKnown(w', d) {
      assert DomainKnown(w, d);
    }
  }

  lemma {:induction false} FrameOf(cfg: Config, w: World, e: Event)
    requires Enabled(cfg, w, e) && !e.Begin? && !e.Judge?
    ensures var w' := Next(cfg, w, e);
            && w'.h.verdicts == w.h.verdicts && w'.h.begun == w.h.begun && w.clock <= w'.clock
            && w'.s.scheduled == w.s.scheduled && w'.s.completed == w.s.completed && w'.s.failed == w.s.failed
  {
    hide Total, Seen, Urls, ZAdd, ListOf, StateOf, Clamp, Candidates, Top, InList, Marks, DelayOf, RemoveFirst, ZRem;
  }

  lemma {:induction false} StatesOf(cfg: Config, w: World, e: Event, d: string)
    requires Enabled(cfg, w, e) && !e.Begin? && !e.Judge?
    ensures var w' := Next(cfg, w, e);
            StateOf(w'.s, d) == StateOf(w.s, d).(crawlDelay := StateOf(w'.s, d).crawlDelay)
  {
    hide Total, Seen, Urls, ZAdd, ListOf, Clamp, Candidates, Top, InList, Marks, DelayOf, RemoveFirst, ZRem, Renamed;
  }

  lemma {:induction false} NextKnown(cfg: Config, w: World, e: Event)
    requires SchedulerKnown(w) && Enabled(cfg, w, e)
    ensures SchedulerKnown(Next(cfg, w, e))
  {
    hide SchedulerKnown, AddStepped, Fetched, Started, Stopped, Stored, NotedBy, StateOf;
    match e
    case Begin(url, now) => StartedKnown(cfg, w, url, now);
    case Judge(url, o, now) => StoppedKnown(cfg, w, url, o, now);
    case _ =>
      FrameOf(cfg, w, e);
      forall d ensures StateOf(Next(cfg, w, e).s, d)
                       == StateOf(w.s, d).(crawlDelay := StateOf(Next(cfg, w, e).s, d).crawlDelay) {
        StatesOf(cfg, w, e, d);
      }
      KnownFrame(w, Next(cfg, w, e));
  }

  lemma {:induction false} RunKnown(cfg: Config, t0: real, events: seq<Event>)
    ensures SchedulerKnown(Run(cfg, t0, events))
  {
    hide SchedulerKnown, Next, Enabled;
    if events == [] {
      assert SchedulerKnown(Start(t0)) by { StartKnown(t0); }
    } else {
      var n := |events| - 1;
      RunKnown(cfg, t0, events[..n]);
      var w := Run(cfg, t0, events[..n]);
      if Enabled(cfg, w, events[n]) {
        NextKnown(cfg, w, events[n]);
      }
    }
  }

  lemma {:induction false} StartKnown(t0: real)
    ensures SchedulerKnown(Start(t0))
  {
  }

  /**
   In every interleaving a domain's counters are those of its handlers' outcomes: errors since
   the last success, answers, successes and all that was not one; and the scheduler's count the
   workers that began, the successes, and the failures other than a 429.
   */
  lemma {:induction false} CountersFollowOutcomes(cfg: Config, t0: real, events: seq<Event>, d: string)
    ensures var w := Run(cfg, t0, events);
            var st, log := StateOf(w.s, d), w.h.verdicts;
            && st.consecutiveErrors == Errors(log, d)
            && st.total == Total(AnswersOf(d), log)
            && st.successful == Total(SuccessesOf(d), log) && st.failed == Total(MissesOf(d), log)
            && w.s.scheduled == w.h.begun
            && w.s.completed == Total(Successes(), log) && w.s.failed == Total(Misses(), log)
  {
    hide Run, Total, Errors, BlockKnown;
    RunKnown(cfg, t0, events);
    assert DomainKnown(Run(cfg, t0, events), d);
  }

  /**
   In every interleaving, whenever a worker begins: its handler is not called, and the URL is
   offered back with priority -100 instead, exactly if some server error of its domain less than
   300 seconds ago was at least the fifth 429, server error or timeout since the last success.
   Otherwise the scheduler has no block on it any more; and it has an entry either way.
   */
  lemma {:induction false} BlockedIff(cfg: Config, t0: real, events: seq<Event>, url: string, t: real)
    requires var w := Run(cfg, t0, events); url in w.spawned && w.clock <= t
    ensures var w := Run(cfg, t0, events);
            var w' := Next(cfg, w, Begin(url, t));
            if BlockedBy(w.h.verdicts, cfg.domain(url), t)
            then w'.running == w.running && w'.h.calls == w.h.calls
                 && w'.adds == w.adds + [AddOp(cfg.norm(url), 100.0, Checking(true))]
            else w'.running == w.running + multiset{url} && w'.h.calls == w.h.calls + multiset{url}
                 && w'.adds == w.adds && StateOf(w'.s, cfg.domain(url)).blockedUntil == None
    ensures cfg.domain(url) in Next(cfg, Run(cfg, t0, events), Begin(url, t)).s.domains
  {
    hide Run, BlockedBy, CountsKnown;
    RunKnown(cfg, t0, events);
    var w := Run(cfg, t0, events);
    assert DomainKnown(w, cfg.domain(url));
    BeginsOrNot(cfg, w, url, t);
  }

  lemma {:induction false} BeginsOrNot(cfg: Config, w: World, url: string, t: real)
    requires Enabled(cfg, w, Begin(url, t))
    ensures var w', until := Next(cfg, w, Begin(url, t)), StateOf(w.s, cfg.domain(url)).blockedUntil;
            if until.Some? && t < until.value
            then w'.running == w.running && w'.h.calls == w.h.calls
                 && w'.adds == w.adds + [AddOp(cfg.norm(url), 100.0, Checking(true))]
            else w'.running == w.running + multiset{url} && w'.h.calls == w.h.calls + multiset{url}
                 && w'.adds == w.adds && StateOf(w'.s, cfg.domain(url)).blockedUntil == None
    ensures cfg.domain(url) in Next(cfg, w, Begin(url, t)).s.domains
  {
    hide Renamed;
    RenamedAt(w.h.(begun := w.h.begun + 1), url, cfg.norm(url), url);
  }

  // ----- where delays come from -----

  function Between(low: real, high: real, x: real): real {
    if (if high < x then high else x) < low then low else if high < x then high else x
  }

  /** A delay on its way comes from a success and is a multiple of its response time, or from a 429 and is twice the delay of then, at most the maximum. */
  ghost predicate FromVerdict(cfg: Config, v: Verdict, x: Write) {
    && v.domain == x.domain
    && if IsSuccess(v.o) then
         && x.delay == cfg.politeness * v.o.seconds && !x.requeue
         && x.noted == Between(cfg.minDelay, cfg.maxDelay, x.delay)
       else
         && IsThrottle(v.o) && x.requeue && x.noted == x.delay
         && x.delay == if cfg.maxDelay < v.delay * 2.0 then cfg.maxDelay else v.delay * 2.0
  }

  ghost predicate Founded(cfg: Config, log: seq<Verdict>, x: Write) {
    exists i :: 0 <= i < |log| && FromVerdict(cfg, log[i], x)
  }

  ghost predicate DelaysFounded(cfg: Config, w: World) {
    && (forall k :: 0 <= k < |w.writes| ==> Founded(cfg, w.h.verdicts, w.writes[k].write))
    && (forall i :: 0 <= i < |w.h.log| ==> Founded(cfg, w.h.verdicts, w.h.log[i]))
  }

  lemma {:induction false} FoundedMore(cfg: Config, log: seq<Verdict>, v: Verdict, x: Write)
    ensures Founded(cfg, log, x) || FromVerdict(cfg, v, x) ==> Founded(cfg, log + [v], x)
  {
    hide FromVerdict;
    if Founded(cfg, log, x) {
      var i :| 0 <= i < |log| && FromVerdict(cfg, log[i], x);
      assert (log + [v])[i] == log[i];
    } else {
      assert (log + [v])[|log|] == v;
    }
  }

  lemma {:induction false} AskedFrom(cfg: Config, st: DomainState, u: string, o: Result, now: real)
    ensures var asked := Asked(cfg, st, u, o);
            asked.Some? ==> FromVerdict(cfg, Verdict(cfg.domain(u), o, now, st.crawlDelay), asked.value)
  {
  }

  lemma {:induction false} StoppedFounded(cfg: Config, w: World, u: string, o: Result, now: real)
    requires DelaysFounded(cfg, w) && u in w.running && w.clock <= now
    ensures DelaysFounded(cfg, Stopped(cfg, w, u, o, now))
  {
    hide Founded, FromVerdict, Asked, Ended, StateOf, Throttled;
    var w', st := Stopped(cfg, w, u, o, now), StateOf(w.s, cfg.domain(u));
    var v := Verdict(cfg.domain(u), o, now, st.crawlDelay);
    AskedFrom(cfg, st, u, o, now);
    forall x ensures Founded(cfg, w.h.verdicts, x) || FromVerdict(cfg, v, x) ==> Founded(cfg, w'.h.verdicts, x) {
      FoundedMore(cfg, w.h.verdicts, v, x);
    }
  }

  lemma {:induction false} NextFounded(cfg: Config, w: World, e: Event)
    requires DelaysFounded(cfg, w) && Enabled(cfg, w, e)
    ensures DelaysFounded(cfg, Next(cfg, w, e))
  {
    hide Founded, Stopped, Started, AddStepped, Fetched, NotedBy;
    match e
    case Judge(url, o, now) => StoppedFounded(cfg, w, url, o, now);
    case Begin(url, now) => StartedFrame(cfg, w, url, now);
    case StoreDelay(k) => StoredFounded(cfg, w, k);
    case NoteDelay(k) =>
      NotedFrame(cfg, w, k);
      FrameOf(cfg, w, e);
      var w' := Next(cfg, w, e);
      forall j | 0 <= j < |w'.writes| ensures Founded(cfg, w'.h.verdicts, w'.writes[j].write) {
        assert w'.writes[j] == w.writes[if j < k then j else j + 1];
      }
    case AddStep(k) => AddStepFrame(cfg, w, k); FrameOf(cfg, w, e);
    case Add(_, _) =>
    case _ => FetchDelays(cfg, w, e); FrameOf(cfg, w, e);
  }

  lemma {:induction false} StoredFounded(cfg: Config, w: World, k: nat)
    requires DelaysFounded(cfg, w) && k < |w.writes|
    ensures DelaysFounded(cfg, Stored(cfg, w, k))
  {
    hide Founded, DelaySet;
  }

  lemma {:induction false} RunFounded(cfg: Config, t0: real, events: seq<Event>)
    ensures DelaysFounded(cfg, Run(cfg, t0, events))
  {
    hide DelaysFounded, Next, Enabled;
    if events == [] {
      assert DelaysFounded(cfg, Start(t0)) by { StartFounded(cfg, t0); }
    } else {
      var n := |events| - 1;
      RunFounded(cfg, t0, events[..n]);
      var w := Run(cfg, t0, events[..n]);
      if Enabled(cfg, w, events[n]) {
        NextFounded(cfg, w, events[n]);
      }
    }
  }

  lemma {:induction false} StartFounded(cfg: Config, t0: real)
    ensures DelaysFounded(cfg, Start(t0))
  {
  }

  /** The delay that a verdict leads to, before it is clamped. */
  function DelayFrom(cfg: Config, v: Verdict): real {
    if v.o.Response? && IsSuccess(v.o) then cfg.politeness * v.o.seconds
    else if cfg.maxDelay < v.delay * 2.0 then cfg.maxDelay
    else v.delay * 2.0
  }

  /**
   In every interleaving, a delay stored in the frontier goes back to an outcome of that very
   domain: to a success, and then it is the politeness factor times the response time; or to a
   429, and then it is twice the scheduler's delay of that time, at most the maximum. It is
   stored clamped between minimum and maximum.
   */
  lemma {:induction false} StoredDelaysFollowOutcomes(cfg: Config, t0: real, events: seq<Event>, d: string)
    requires d in Run(cfg, t0, events).r.delays
    ensures var w := Run(cfg, t0, events);
            var log := w.h.verdicts;
            exists i :: 0 <= i < |log| && log[i].domain == d && (IsSuccess(log[i].o) || IsThrottle(log[i].o))
                        && w.r.delays[d] == Between(cfg.minDelay, cfg.maxDelay, DelayFrom(cfg, log[i]))
  {
    hide Run;
    RunFounded(cfg, t0, events);
    RunDelays(cfg, t0, events);
    var w := Run(cfg, t0, events);
    var log := w.h.verdicts;
    assert StoreKnows(cfg, w, d);
    var x := w.h.log[Latest(w.h.log, d)];
    assert Founded(cfg, log, x);
    var i :| 0 <= i < |log| && FromVerdict(cfg, log[i], x);
    assert x.delay == DelayFrom(cfg, log[i]);
    assert w.r.delays[d] == Between(cfg.minDelay, cfg.maxDelay, x.delay);
  }

  /**
   When a worker notes a delay, in every interleaving, it queues its URL again exactly if that
   delay goes back to a 429: with priority -50, under its normal form, and past the duplicate
   check.
   */
  lemma {:induction false} ThrottledIsRequeued(cfg: Config, t0: real, events: seq<Event>, k: nat)
    requires Enabled(cfg, Run(cfg, t0, events), NoteDelay(k))
    ensures var w := Run(cfg, t0, events);
            var w', op := Next(cfg, w, NoteDelay(k)), w.writes[k];
            && w'.adds == w.adds + (if op.write.requeue then [AddOp(cfg.norm(op.url), 50.0, Marking)] else [])
            && exists i :: 0 <= i < |w.h.verdicts| && w.h.verdicts[i].domain == op.write.domain
                           && if op.write.requeue then IsThrottle(w.h.verdicts[i].o) else IsSuccess(w.h.verdicts[i].o)
  {
    hide Run, Noted, Renamed;
    RunFounded(cfg, t0, events);
    var w := Run(cfg, t0, events);
    assert Founded(cfg, w.h.verdicts, w.writes[k].write);
    var i :| 0 <= i < |w.h.verdicts| && FromVerdict(cfg, w.h.verdicts[i], w.writes[k].write);
  }
}
