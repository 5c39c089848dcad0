/**
 The crawl scheduler: its domain table and counters, and what a worker does to them between
 two awaits. `Crawl` interleaves these steps with the commands of the frontier. Scheduler
 and frontier are configured with the same delays.
 */
module Scheduler {
  import opened Common
  import opened Frontier

  const BLOCK_SECONDS: real := 300.0
  const ERRORS_TO_BLOCK: nat := 5
  const BLOCKED_PRIORITY: real := -100.0
  const THROTTLED_PRIORITY: real := -50.0

  datatype DomainState = DomainState(
    crawlDelay: real, total: nat, successful: nat, failed: nat,
    consecutiveErrors: nat, blockedUntil: Option<real>)

  const NewDomain := DomainState(1.0, 0, 0, 0, 0, None)

  /** What the handler comes to: a response, a timeout, or any other exception. */
  datatype Result = Response(status: int, seconds: real) | TimedOut | Crashed

  datatype Sched = Sched(domains: map<string, DomainState>, scheduled: nat, completed: nat, failed: nat)

  const Fresh := Sched(map[], 0, 0, 0)

  function StateOf(s: Sched, d: string): DomainState {
    if d in s.domains then s.domains[d] else NewDomain
  }

  predicate Blocked(st: DomainState, now: real) {
    st.blockedUntil.Some? && now < st.blockedUntil.value
  }

  /** A worker up to its first await; the flag says whether that is the handler. */
  function Begun(cfg: Config, s: Sched, url: string, now: real): (Sched, bool) {
    var d := cfg.domain(url);
    var st := StateOf(s, d);
    var s' := s.(scheduled := s.scheduled + 1, domains := s.domains[d := st]);
    if Blocked(st, now) then (s', false)
    else (s'.(domains := s.domains[d := st.(blockedUntil := None)]), true)
  }

  predicate Succeeded(o: Result) {
    o.Response? && 200 <= o.status < 400
  }

  predicate Throttled(o: Result) {
    o.Response? && o.status == 429
  }

  function BlockAfter(st: DomainState, now: real): DomainState {
    if st.consecutiveErrors >= ERRORS_TO_BLOCK then st.(blockedUntil := Some(now + BLOCK_SECONDS)) else st
  }

  /** The delay after a 429. */
  function Backoff(cfg: Config, crawlDelay: real): real {
    MinReal(crawlDelay * 2.0, cfg.maxDelay)
  }

  /** The domain's entry after a handler has come to `o`, up to the next await. */
  function Judged(st: DomainState, o: Result, now: real): DomainState {
    var hit := st.(total := st.total + 1);
    var miss := hit.(failed := st.failed + 1);
    match o
    case Response(status, seconds) =>
      if 200 <= status < 400 then hit.(successful := st.successful + 1, consecutiveErrors := 0)
      else if status == 429 then miss.(consecutiveErrors := st.consecutiveErrors + 1)
      else if status >= 500 then BlockAfter(miss.(consecutiveErrors := st.consecutiveErrors + 1), now)
      else miss
    case TimedOut => st.(failed := st.failed + 1, consecutiveErrors := st.consecutiveErrors + 1)
    case Crashed => st.(failed := st.failed + 1)
  }

  /**
   A delay on its way: what the frontier is asked to store, and what the scheduler will note
   once that is acknowledged. `requeue` says that the URL is queued again afterwards.
   */
  datatype Write = Write(domain: string, delay: real, noted: real, requeue: bool)

  function Asked(cfg: Config, st: DomainState, url: string, o: Result): Option<Write> {
    var d := cfg.domain(url);
    if Succeeded(o) then
      Some(Write(d, AdaptiveDelay(cfg, o.seconds), Clamp(cfg, AdaptiveDelay(cfg, o.seconds)), false))
    else if Throttled(o) then
      Some(Write(d, Backoff(cfg, st.crawlDelay), Backoff(cfg, st.crawlDelay), true))
    else None
  }

  /** The scheduler after a handler has come to `o`, up to the next await. */
  function Ended(cfg: Config, s: Sched, url: string, o: Result, now: real): Sched {
    var d := cfg.domain(url);
    Sched(s.domains[d := Judged(StateOf(s, d), o, now)],
          s.scheduled,
          if Succeeded(o) then s.completed + 1 else s.completed,
          if Succeeded(o) || Throttled(o) then s.failed else s.failed + 1)
  }

  /** The scheduler once a delay has been acknowledged. */
  function Noted(s: Sched, d: string, delay: real): Sched {
    s.(domains := s.domains[d := StateOf(s, d).(crawlDelay := delay)])
  }

  /** What an undisturbed worker does after its handler, to scheduler and frontier. */
  function WorkedOff(cfg: Config, s: Sched, r: Redis, url: string, o: Result, now: real): (Sched, Redis) {
    var s' := Ended(cfg, s, url, o, now);
    match Asked(cfg, StateOf(s, cfg.domain(url)), url, o)
    case None => (s', r)
    case Some(w) =>
      var r' := DelaySet(cfg, r, w.domain, w.delay);
      (Noted(s', w.domain, w.noted),
       if w.requeue then Added(cfg, r', url, THROTTLED_PRIORITY, true).0 else r')
  }

  class CrawlScheduler {
    const frontier: DistributedURLFrontier
    var domainStates: map<string, DomainState>
    var urlsScheduled: nat
    var urlsCompleted: nat
    var urlsFailed: nat

    constructor (frontier: DistributedURLFrontier)
      ensures this.frontier == frontier && Snapshot() == Fresh
    {
      this.frontier := frontier;
      domainStates, urlsScheduled, urlsCompleted, urlsFailed := map[], 0, 0, 0;
    }

    function Snapshot(): Sched
      reads this
    {
      Sched(domainStates, urlsScheduled, urlsCompleted, urlsFailed)
    }

    /** `_worker` up to its first await: the handler, or the re-queue of a blocked domain's URL. */
    method WorkerBegin(url: string, now: real) returns (callHandler: bool)
      modifies this
      ensures (Snapshot(), callHandler) == Begun(frontier.cfg, old(Snapshot()), url, now)
    {
      var domain := frontier.cfg.domain(url);
      urlsScheduled := urlsScheduled + 1;
      if domain !in domainStates {
        domainStates := domainStates[domain := NewDomain];
      }
      var st := domainStates[domain];
      assert domainStates == old(domainStates)[domain := st];
      if st.blockedUntil.Some? {
        if now < st.blockedUntil.value {
          return false;
        }
      }
      domainStates := domainStates[domain := st.(blockedUntil := None)];
      assert domainStates == old(domainStates)[domain := st.(blockedUntil := None)];
      return true;
    }

    /** `_worker` from the end of the handler to the next await; the domain's entry exists by then. */
    method WorkerJudge(url: string, o: Result, now: real) returns (asked: Option<Write>)
      requires frontier.cfg.domain(url) in domainStates
      modifies this
      ensures Snapshot() == Ended(frontier.cfg, old(Snapshot()), url, o, now)
      ensures var d := frontier.cfg.domain(url);
              asked == Asked(frontier.cfg, StateOf(old(Snapshot()), d), url, o)
    {
      hide AdaptiveDelay, Clamp, Backoff;
      var cfg := frontier.cfg;
      var domain := cfg.domain(url);
      var st := domainStates[domain];
      asked := None;
      match o {
        case Response(status, seconds) =>
          st := st.(total := st.total + 1);
          if 200 <= status < 400 {
            st := st.(successful := st.successful + 1, consecutiveErrors := 0);
            urlsCompleted := urlsCompleted + 1;
            var newDelay := Clamp(cfg, AdaptiveDelay(cfg, seconds));
            asked := Some(Write(domain, AdaptiveDelay(cfg, seconds), newDelay, false));
          } else if status == 429 {
            st := st.(failed := st.failed + 1, consecutiveErrors := st.consecutiveErrors + 1);
            var newDelay := Backoff(cfg, st.crawlDelay);
            asked := Some(Write(domain, newDelay, newDelay, true));
          } else if status >= 500 {
            st := st.(failed := st.failed + 1, consecutiveErrors := st.consecutiveErrors + 1);
            urlsFailed := urlsFailed + 1;
            if st.consecutiveErrors >= ERRORS_TO_BLOCK {
              st := st.(blockedUntil := Some(now + BLOCK_SECONDS));
            }
          } else {
            st := st.(failed := st.failed + 1);
            urlsFailed := urlsFailed + 1;
          }
        case TimedOut =>
          urlsFailed := urlsFailed + 1;
          st := st.(failed := st.failed + 1, consecutiveErrors := st.consecutiveErrors + 1);
        case Crashed =>
          urlsFailed := urlsFailed + 1;
          st := st.(failed := st.failed + 1);
      }
      domainStates := domainStates[domain := st];
    }

    /** `_worker` when its delay has been acknowledged. */
    method WorkerNote(domain: string, delay: real)
      requires domain in domainStates
      modifies this`domainStates
      ensures Snapshot() == Noted(old(Snapshot()), domain, delay)
    {
      domainStates := domainStates[domain := domainStates[domain].(crawlDelay := delay)];
    }

    /** `_worker` after the handler, undisturbed. */
    method WorkerFinish(url: string, o: Result, now: real)
      requires frontier.Valid() && frontier.cfg.domain(url) in domainStates
      modifies this, frontier, frontier.bloom
      ensures (Snapshot(), frontier.Snapshot())
           == WorkedOff(frontier.cfg, old(Snapshot()), old(frontier.Snapshot()), url, o, now)
    {
      hide Added, AdaptiveDelay, Clamp, Backoff, Judged;
      var asked := WorkerJudge(url, o, now);
      if asked.Some? {
        var w := asked.value;
        if w.requeue {
          frontier.SetDomainDelay(w.domain, w.delay);
        } else {
          frontier.UpdateDomainDelayFromResponse(w.domain, o.seconds);
        }
        WorkerNote(w.domain, w.noted);
        if w.requeue {
          var _ := frontier.AddUrl(url, THROTTLED_PRIORITY, true);
        }
      }
    }
  }

  // ----- the two copies of a delay -----

  predicate SaneDelays(cfg: Config) {
    0.0 <= cfg.minDelay <= cfg.maxDelay && cfg.minDelay <= 2.0
  }

  /** Redis stores what the scheduler notes. */
  predicate SameBoth(cfg: Config, w: Write) {
    Clamp(cfg, w.delay) == w.noted
  }

  /** Enough for the next 429 to store what it notes. */
  predicate Doubles(cfg: Config, crawlDelay: real) {
    cfg.minDelay <= crawlDelay * 2.0
  }

  lemma {:induction false} AskedSame(cfg: Config, st: DomainState, url: string, o: Result)
    requires SaneDelays(cfg) && Doubles(cfg, st.crawlDelay) && Asked(cfg, st, url, o).Some?
    ensures SameBoth(cfg, Asked(cfg, st, url, o).value) && Doubles(cfg, Asked(cfg, st, url, o).value.noted)
  {
    hide AdaptiveDelay;
  }

  /** At a domain's first 429 Redis stores what the scheduler notes exactly if the minimum delay is at most two seconds. */
  lemma {:induction false} FirstBackoffAgreesIff(cfg: Config, url: string, seconds: real)
    requires cfg.minDelay <= cfg.maxDelay
    ensures var w := Asked(cfg, NewDomain, url, Response(429, seconds));
            w.Some? && (SameBoth(cfg, w.value) <==> cfg.minDelay <= 2.0)
  {
  }

  /** A URL that is not its own normal form is replaced by another one when it is re-queued after a 429. */
  lemma {:induction false} NonNormalEscapes(cfg: Config, r: Redis, url: string, priority: real)
    requires Ranked(r.queue) && url !in Urls(r.queue) && cfg.norm(url) != url
    ensures var q := Urls(Added(cfg, r, url, priority, true).0.queue);
            cfg.norm(url) in q && url !in q
  {
    hide Urls, Ranked, ZAdd;
    QueueStaysRanked(r.queue, cfg.norm(url), -priority);
  }
}
