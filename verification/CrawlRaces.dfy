/** Interleavings that show what the laws of `Crawl` leave open: each is a run from an empty crawl. */
module CrawlRaces {
  import opened Common
  import opened Frontier
  import opened Scheduler
  import opened Crawl
  import CrawlSteps
  import Bloom
  import UrlStrings

  /** The URLs that a run tries to add. */
  function Offers(es: seq<Event>): set<string> {
    set e | e in es && e.Add? :: e.url
  }

  /** One more step of a run. */
  lemma {:induction false} Then(cfg: Config, t0: real, es: seq<Event>, e: Event) returns (more: seq<Event>)
    requires Enabled(cfg, Run(cfg, t0, es), e)
    ensures Run(cfg, t0, more) == Next(cfg, Run(cfg, t0, es), e)
    ensures Offers(more) == Offers(es) + if e.Add? then {e.url} else {}
  {
    hide Next, Enabled;
    more := es + [e];
    assert more[..|es|] == es;
  }

  lemma {:induction false} Begins(cfg: Config, t0: real)
    ensures Run(cfg, t0, []) == Start(t0)
  {
  }

  /** The queue with one URL in it. */
  function Single(u: string, score: real): seq<Entry> {
    [Entry(u, score)]
  }

  lemma {:induction false} SingleQueue(u: string, score: real)
    ensures ZAdd([], u, score) == Single(u, score) && ZRem(Single(u, score), u) == []
    ensures Candidates(Top(Single(u, score))) == [u] && Urls([]) == {}
  {
    assert Single(u, score)[1..] == [];
    assert Top(Single(u, score)) == Single(u, score);
  }

  // ----- releasing a URL -----

  /** The world after the only queued URL has been released. */
  function Served(cfg: Config, w: World, u: string, at: real): World {
    w.(r := Stamped(cfg, Unlisted(cfg, w.r.(queue := []), u), u, at), clock := at,
       spawned := w.spawned + multiset{u},
       h := w.h.(missed := if InList(cfg, w.r, u) == 0 then w.h.missed + multiset{u} else w.h.missed,
                 releases := w.h.releases + [Release(cfg.domain(u), at, DelayOf(cfg, w.r, cfg.domain(u)), DelayOf(cfg, w.r, cfg.domain(u)))]))
  }

  /** From the scan up to the decision. */
  lemma {:induction false} Chosen(cfg: Config, t0: real, es: seq<Event>, u: string, score: real, at: real)
    returns (more: seq<Event>)
    requires var w := Run(cfg, t0, es);
             && w.fetch.Resting? && w.r.queue == Single(u, score) && w.clock <= at
             && Ready(cfg, w.r, cfg.domain(u), at)
    ensures var w := Run(cfg, t0, es);
            Run(cfg, t0, more) == w.(fetch := Pulling(u, DelayOf(cfg, w.r, cfg.domain(u))), clock := at)
    ensures Offers(more) == Offers(es)
  {
    hide Run, Candidates, Top, Single, Offers;
    var w := Run(cfg, t0, es);
    SingleQueue(u, score);
    more := Then(cfg, t0, es, Event.Scan);
    more := Then(cfg, t0, more, Look);
    more := Then(cfg, t0, more, Decide(at));
  }

  lemma {:induction false} Serve(cfg: Config, t0: real, es: seq<Event>, u: string, score: real, at: real)
    returns (more: seq<Event>)
    requires var w := Run(cfg, t0, es);
             && w.fetch.Resting? && w.r.queue == Single(u, score) && w.clock <= at
             && Ready(cfg, w.r, cfg.domain(u), at)
    ensures Run(cfg, t0, more) == Served(cfg, Run(cfg, t0, es), u, at) && Offers(more) == Offers(es)
  {
    hide Run, Offers, ZRem, Single, InList, ListOf, RemoveFirst, DelayOf;
    SingleQueue(u, score);
    more := Chosen(cfg, t0, es, u, score, at);
    var w := Run(cfg, t0, more);
    more := Then(cfg, t0, more, Pull);
    more := Then(cfg, t0, more, Unlist);
    SameLists(cfg, Run(cfg, t0, es).r, Pulled(w.r, u), u);
    SameDelay(cfg, w.r, Run(cfg, t0, more).r, cfg.domain(u));
    more := Then(cfg, t0, more, Stamp(at));
  }

  lemma {:induction false} SameDelay(cfg: Config, r: Redis, r': Redis, d: string)
    requires r'.delays == r.delays
    ensures DelayOf(cfg, r', d) == DelayOf(cfg, r, d)
  {
  }

  // ----- adding a URL -----

  /** The only add, as far as the queue. */
  function Entered(cfg: Config, w: World, u: string): World {
    w.(r := w.r.(bits := w.r.bits + Marks(cfg, u), queue := Single(u, 0.0)),
       adds := [AddOp(u, 0.0, Listing)],
       h := w.h.(accepted := w.h.accepted + multiset{u}, marked := w.h.marked + [u]))
  }

  lemma {:induction false} Pass(cfg: Config, t0: real, es: seq<Event>, url: string) returns (more: seq<Event>)
    requires Run(cfg, t0, es).adds == [] && !Seen(cfg, Run(cfg, t0, es).r, cfg.norm(url))
    ensures var w, u := Run(cfg, t0, es), cfg.norm(url);
            Run(cfg, t0, more) == w.(adds := [AddOp(u, 0.0, Marking)],
                                     h := w.h.(accepted := w.h.accepted + multiset{u}))
    ensures Offers(more) == Offers(es) + {url}
  {
    hide Run, Seen, AddStepped, Offers;
    var u := cfg.norm(url);
    more := Then(cfg, t0, es, Add(url, 0.0));
    var w := Run(cfg, t0, es).(adds := [AddOp(u, 0.0, Checking(false))]);
    assert Run(cfg, t0, more) == w;
    more := Then(cfg, t0, more, AddStep(0));
    PassStep(cfg, w, u);
  }

  lemma {:induction false} PassStep(cfg: Config, w: World, u: string)
    requires w.adds == [AddOp(u, 0.0, Checking(false))] && !Seen(cfg, w.r, u)
    ensures AddStepped(cfg, w, 0) == w.(adds := [AddOp(u, 0.0, Marking)],
                                        h := w.h.(accepted := w.h.accepted + multiset{u}))
  {
    TotalZero(MarkingOf(u), w.adds);
    hide Total, Seen;
    assert w.h.overlapped + {} == w.h.overlapped;
    assert w.adds[0 := AddOp(u, 0.0, Marking)] == [AddOp(u, 0.0, Marking)];
  }

  lemma {:induction false} Enter(cfg: Config, t0: real, es: seq<Event>, url: string) returns (more: seq<Event>)
    requires var w := Run(cfg, t0, es); w.adds == [] && w.r.queue == [] && !Seen(cfg, w.r, cfg.norm(url))
    ensures Run(cfg, t0, more) == Entered(cfg, Run(cfg, t0, es), cfg.norm(url))
    ensures Offers(more) == Offers(es) + {url}
  {
    hide Run, Marks, ZAdd, Urls, Single, Total, Seen, Offers;
    var u := cfg.norm(url);
    SingleQueue(u, 0.0);
    more := Pass(cfg, t0, es, url);
    more := Then(cfg, t0, more, AddStep(0));
    assert [AddOp(u, 0.0, Marking)][0 := AddOp(u, 0.0, Queueing)] == [AddOp(u, 0.0, Queueing)];
    more := Then(cfg, t0, more, AddStep(0));
    assert [AddOp(u, 0.0, Queueing)][0 := AddOp(u, 0.0, Listing)] == [AddOp(u, 0.0, Listing)];
  }

  lemma {:induction false} PutInList(cfg: Config, t0: real, es: seq<Event>, u: string) returns (more: seq<Event>)
    requires Run(cfg, t0, es).adds == [AddOp(u, 0.0, Listing)]
    ensures var w := Run(cfg, t0, es); Run(cfg, t0, more) == w.(r := Listed(cfg, w.r, u), adds := [])
    ensures Offers(more) == Offers(es)
  {
    hide Run, Offers;
    more := Then(cfg, t0, es, AddStep(0));
    assert Without([AddOp(u, 0.0, Listing)], 0) == [];
  }

  // ----- a release between ZADD and RPUSH -----

  /**
   For every URL with at least one bit in the filter: released before it is listed, it stays
   in the list of its domain when everything is at rest and the queue is empty. No two adds
   overlap in this run.
   */
  lemma {:induction false} StaleEntry(cfg: Config, u: string) returns (es: seq<Event>)
    requires cfg.norm(u) == u && Marks(cfg, u) != {}
    ensures var w := Run(cfg, 0.0, es);
            && ListsAtRest(w) && w.adds == [] && w.r.queue == [] && InList(cfg, w.r, u) == 1
            && !Mirrored(cfg, w.r) && w.h.overlapped == {}
  {
    Begins(cfg, 0.0);
    hide Run, Marks;
    es := Enter(cfg, 0.0, [], u);
    var w1 := Run(cfg, 0.0, es);
    es := Serve(cfg, 0.0, es, u, 0.0, 0.0);
    es := PutInList(cfg, 0.0, es, u);
    var w := Run(cfg, 0.0, es);
    assert ListOf(w.r, cfg.domain(u)) == [u] by { StaleList(cfg, w1, u); }
    assert !MirroredAt(cfg, w.r, cfg.domain(u), u);
  }

  lemma {:induction false} StaleList(cfg: Config, w: World, u: string)
    requires w.r.lists == map[]
    ensures ListOf(Listed(cfg, Served(cfg, w, u, 0.0).r, u), cfg.domain(u)) == [u]
  {
  }

  // ----- two adds of one URL -----

  function Op(u: string, phase: Phase): AddOp {
    AddOp(u, 0.0, phase)
  }

  /** Two adds of one URL on an empty crawl. */
  ghost predicate Two(w: World, u: string, a: Phase, b: Phase) {
    && w.adds == [Op(u, a), Op(u, b)]
    && w.fetch.Resting? && w.clock == 0.0 && w.s == Fresh && w.r.crawlTimes == map[] && w.r.delays == map[]
    && w.spawned == w.running == w.h.calls == w.h.throttles == multiset{}
  }

  /** Both adds pass the check before either sets its bits. */
  lemma {:induction false} BothPass(cfg: Config, u: string) returns (es: seq<Event>)
    requires cfg.norm(u) == u && Marks(cfg, u) != {}
    ensures var w := Run(cfg, 0.0, es);
            Two(w, u, Marking, Marking) && w.r == Cleared
  {
    Begins(cfg, 0.0);
    hide Run, Marks, Total;
    es := Then(cfg, 0.0, [], Add(u, 0.0));
    es := Then(cfg, 0.0, es, Add(u, 0.0));
    assert Two(Run(cfg, 0.0, es), u, Checking(false), Checking(false));
    es := Then(cfg, 0.0, es, AddStep(0));
    assert Two(Run(cfg, 0.0, es), u, Marking, Checking(false));
    es := Then(cfg, 0.0, es, AddStep(1));
  }

  lemma {:induction false} BothMark(cfg: Config, u: string) returns (es: seq<Event>)
    requires cfg.norm(u) == u && Marks(cfg, u) != {}
    ensures var w := Run(cfg, 0.0, es); Two(w, u, Queueing, Queueing) && w.r.queue == []
  {
    es := BothPass(cfg, u);
    hide Run, Marks;
    es := Then(cfg, 0.0, es, AddStep(0));
    assert Two(Run(cfg, 0.0, es), u, Queueing, Marking);
    es := Then(cfg, 0.0, es, AddStep(1));
  }

  /** The first of them is queued and listed. */
  lemma {:induction false} TwoPass(cfg: Config, u: string) returns (es: seq<Event>)
    requires cfg.norm(u) == u && Marks(cfg, u) != {}
    ensures var w := Run(cfg, 0.0, es);
            && w.adds == [Op(u, Queueing)] && w.r.queue == Single(u, 0.0)
            && w.fetch.Resting? && w.clock == 0.0 && w.s == Fresh
            && w.r.crawlTimes == map[] && w.r.delays == map[]
            && w.spawned == w.running == w.h.calls == w.h.throttles == multiset{}
  {
    es := BothMark(cfg, u);
    hide Run, Marks, ZAdd, Urls, Single;
    SingleQueue(u, 0.0);
    es := Then(cfg, 0.0, es, AddStep(0));
    assert Two(Run(cfg, 0.0, es), u, Listing, Queueing);
    es := Then(cfg, 0.0, es, AddStep(0));
    assert Without([Op(u, Listing), Op(u, Queueing)], 0) == [Op(u, Queueing)];
  }

  /** A worker calls its handler. */
  lemma {:induction false} Call(cfg: Config, t0: real, es: seq<Event>, u: string, now: real) returns (more: seq<Event>)
    requires var w := Run(cfg, t0, es);
             u in w.spawned && w.clock <= now && StateOf(w.s, cfg.domain(u)).blockedUntil == None
    ensures var w, w' := Run(cfg, t0, es), Run(cfg, t0, more);
            && w' == w.(s := w'.s, clock := now, spawned := w.spawned - multiset{u}, running := w.running + multiset{u},
                        h := w.h.(calls := w.h.calls + multiset{u}, begun := w.h.begun + 1))
            && StateOf(w'.s, cfg.domain(u)).blockedUntil == None
    ensures Offers(more) == Offers(es)
  {
    hide Run, Offers;
    more := Then(cfg, t0, es, Begin(u, now));
  }

  lemma {:induction false} Crash(cfg: Config, t0: real, es: seq<Event>, u: string) returns (more: seq<Event>)
    requires var w := Run(cfg, t0, es); u in w.running && StateOf(w.s, cfg.domain(u)).blockedUntil == None
    ensures var w, w' := Run(cfg, t0, es), Run(cfg, t0, more);
            && w' == w.(s := w'.s, running := w.running - multiset{u},
                        h := w.h.(finished := w.h.finished + multiset{u}, verdicts := w'.h.verdicts))
            && StateOf(w'.s, cfg.domain(u)).blockedUntil == None
  {
    hide Run;
    more := Then(cfg, t0, es, Judge(u, Crashed, Run(cfg, t0, es).clock));
  }

  /** One call of the handler that ends in an exception. */
  lemma {:induction false} Handle(cfg: Config, t0: real, es: seq<Event>, u: string, now: real) returns (more: seq<Event>)
    requires var w := Run(cfg, t0, es);
             u in w.spawned && w.clock <= now && StateOf(w.s, cfg.domain(u)).blockedUntil == None
    ensures var w, w' := Run(cfg, t0, es), Run(cfg, t0, more);
            && w' == w.(s := w'.s, clock := now, spawned := w.spawned - multiset{u}, h := w'.h)
            && StateOf(w'.s, cfg.domain(u)).blockedUntil == None
            && w'.h.calls == w.h.calls + multiset{u} && w'.h.throttles == w.h.throttles
  {
    hide Run, StateOf;
    more := Call(cfg, t0, es, u, now);
    more := Crash(cfg, t0, more, u);
    var before := Run(cfg, t0, es).running;
    assert before + multiset{u} - multiset{u} == before;
  }

  /**
   For every URL with at least one bit in the filter: if two adds of it overlap, its handler
   can run twice although it never answers 429.
   */
  lemma {:induction false} HandledTwice(cfg: Config, u: string) returns (es: seq<Event>)
    requires cfg.norm(u) == u && Marks(cfg, u) != {}
    ensures var w := Run(cfg, 0.0, es); w.h.calls[u] == 2 && w.h.throttles[u] == 0
  {
    hide Run, Marks, Single, ZAdd, Urls, ListOf, InList;
    var d, later := cfg.domain(u), MaxReal(0.0, cfg.defaultDelay);
    es := TwoPass(cfg, u);
    es := Serve(cfg, 0.0, es, u, 0.0, 0.0);
    es := Handle(cfg, 0.0, es, u, 0.0);
    SingleQueue(u, 0.0);
    es := Then(cfg, 0.0, es, AddStep(0));
    assert Run(cfg, 0.0, es).r.queue == Single(u, 0.0);
    es := Serve(cfg, 0.0, es, u, 0.0, later);
    es := Handle(cfg, 0.0, es, u, later);
  }

  // ----- two workers of one domain -----

  /** A URL added, listed, released and given to its handler. */
  lemma {:induction false} Launch(cfg: Config, es: seq<Event>, u: string, at: real) returns (more: seq<Event>)
    requires var w := Run(cfg, 0.0, es);
             && w.adds == [] && w.r.queue == [] && w.fetch.Resting? && w.clock <= at
             && !Seen(cfg, w.r, u) && cfg.norm(u) == u && Ready(cfg, w.r, cfg.domain(u), at)
             && StateOf(w.s, cfg.domain(u)).blockedUntil == None
    ensures var w, w' := Run(cfg, 0.0, es), Run(cfg, 0.0, more);
            && w'.adds == [] && w'.r.queue == [] && w'.fetch.Resting? && w'.clock == at
            && w'.r.bits == w.r.bits + Marks(cfg, u) && w'.r.delays == w.r.delays
            && w'.r.crawlTimes == w.r.crawlTimes[cfg.domain(u) := at]
            && w'.running == w.running + multiset{u} && w'.writes == w.writes
            && w'.s.domains == w.s.domains[cfg.domain(u) := StateOf(w.s, cfg.domain(u))]
            && w'.h.log == w.h.log && w'.h.noted == w.h.noted
            && |w'.h.releases| == |w.h.releases| + 1 && w.h.releases <= w'.h.releases
            && w'.h.releases[|w.h.releases|].domain == cfg.domain(u) && w'.h.releases[|w.h.releases|].at == at
  {
    hide Run, Offers, Marks, Single, ListOf, InList, RemoveFirst;
    more := Enter(cfg, 0.0, es, u);
    more := PutInList(cfg, 0.0, more, u);
    more := Serve(cfg, 0.0, more, u, 0.0, at);
    more := Then(cfg, 0.0, more, Begin(u, at));
  }

  /**
   Two workers of one domain that store their delays in one order and note them in the other:
   at rest, Redis has the delay of one and the scheduler that of the other.
   */
  lemma {:induction false} CopiesPart(cfg: Config, u: string, v: string, s1: real, s2: real) returns (es: seq<Event>)
    requires cfg.norm(u) == u && cfg.norm(v) == v && cfg.domain(u) == cfg.domain(v) && u != v
    requires Marks(cfg, u) != {} && !(Marks(cfg, v) <= Marks(cfg, u))
    requires Clamp(cfg, AdaptiveDelay(cfg, s1)) != Clamp(cfg, AdaptiveDelay(cfg, s2))
    ensures var w, d := Run(cfg, 0.0, es), cfg.domain(u);
            && DelayAtRest(w, d) && d in w.r.delays && w.r.delays[d] != StateOf(w.s, d).crawlDelay
  {
    Begins(cfg, 0.0);
    hide Run, Marks, Clamp, AdaptiveDelay;
    var d, later := cfg.domain(u), MaxReal(0.0, cfg.defaultDelay);
    es := Launch(cfg, [], u, 0.0);
    es := Launch(cfg, es, v, later);
    es := Answer(cfg, es, u, s1);
    es := Answer(cfg, es, v, s2);
    es := Cross(cfg, es, d);
  }

  lemma {:induction false} StoreBoth(cfg: Config, es: seq<Event>, d: string) returns (more: seq<Event>)
    requires var ops := Run(cfg, 0.0, es).writes;
             |ops| == 2 && ops[0].write.domain == ops[1].write.domain == d && ops[0].id == ops[1].id == None
    ensures var w, ops := Run(cfg, 0.0, more), Run(cfg, 0.0, es).writes;
            && |w.writes| == 2 && w.writes[0].write == ops[0].write && w.writes[1].write == ops[1].write
            && w.writes[0].id.Some? && w.writes[1].id.Some?
            && d in w.r.delays && w.r.delays[d] == Clamp(cfg, ops[1].write.delay)
  {
    hide Run, Clamp, Offers;
    more := Then(cfg, 0.0, es, StoreDelay(0));
    more := Then(cfg, 0.0, more, StoreDelay(1));
  }

  /** Two workers store their delays in one order and note them in the other. */
  lemma {:induction false} Cross(cfg: Config, es: seq<Event>, d: string) returns (more: seq<Event>)
    requires var ops := Run(cfg, 0.0, es).writes;
             && |ops| == 2 && ops[0].write.domain == ops[1].write.domain == d && ops[0].id == ops[1].id == None
             && Clamp(cfg, ops[1].write.delay) != ops[0].write.noted
    ensures var w := Run(cfg, 0.0, more);
            && DelayAtRest(w, d) && d in w.r.delays && w.r.delays[d] != StateOf(w.s, d).crawlDelay
  {
    more := StoreBoth(cfg, es, d);
    hide Run, Clamp, Offers, NotedBy;
    NotedFrame(cfg, Run(cfg, 0.0, more), 1);
    more := Then(cfg, 0.0, more, NoteDelay(1));
    NotedFrame(cfg, Run(cfg, 0.0, more), 0);
    more := Then(cfg, 0.0, more, NoteDelay(0));
  }

  /** A handler answers with a success. */
  lemma {:induction false} Answer(cfg: Config, es: seq<Event>, u: string, seconds: real) returns (more: seq<Event>)
    requires u in Run(cfg, 0.0, es).running
    ensures var w, w', a := Run(cfg, 0.0, es), Run(cfg, 0.0, more), AdaptiveDelay(cfg, seconds);
            && w'.r == w.r && w'.h.log == w.h.log && w'.running == w.running - multiset{u}
            && w'.fetch == w.fetch && w'.clock == w.clock && w'.h.releases == w.h.releases
            && w'.writes == w.writes + [DelayOp(u, Write(cfg.domain(u), a, Clamp(cfg, a), false), None)]
  {
    hide Run, Clamp, AdaptiveDelay, Ended;
    more := Then(cfg, 0.0, es, Judge(u, Response(200, seconds), Run(cfg, 0.0, es).clock));
  }

  // ----- a URL that is not stable under normalisation -----

  /** The handler answers 429, and the backed-off delay is stored and noted. */
  lemma {:induction false} Throttle(cfg: Config, es: seq<Event>, u: string) returns (more: seq<Event>)
    requires var w := Run(cfg, 0.0, es); u in w.running && w.writes == [] && w.adds == []
    ensures var w, w' := Run(cfg, 0.0, es), Run(cfg, 0.0, more);
            && w'.h.accepted == w.h.accepted && w'.h.merged == w.h.merged
            && w'.h.renamedIn == Renamed(w.h, u, cfg.norm(u)).renamedIn
            && w'.h.renamedOut == Renamed(w.h, u, cfg.norm(u)).renamedOut
    ensures Offers(more) == Offers(es)
  {
    hide Run, Offers, Next, Ended, Noted, Asked, DelaySet, StateOf;
    var w, o := Run(cfg, 0.0, es), Response(429, 0.0);
    AskedRequeues(cfg, StateOf(w.s, cfg.domain(u)), u, o);
    CrawlSteps.JudgeStep(cfg, w, u, o, w.clock);
    more := Then(cfg, 0.0, es, Judge(u, o, w.clock));
    var w1 := Run(cfg, 0.0, more);
    var op := w1.writes[0];
    assert w1.writes == [] + [op];
    CrawlSteps.StoreLast(cfg, w1, [], op);
    more := Then(cfg, 0.0, more, StoreDelay(0));
    CrawlSteps.NoteLast(cfg, Run(cfg, 0.0, more), [], op.(id := Some(|w1.h.log|)));
    more := Then(cfg, 0.0, more, NoteDelay(0));
  }

  /** The URL is queued and listed. */
  lemma {:induction false} FirstAdd(cfg: Config, url: string) returns (es: seq<Event>)
    requires Marks(cfg, cfg.norm(url)) != {}
    ensures var w, u := Run(cfg, 0.0, es), cfg.norm(url);
            && Offers(es) == {url} && w == Start(0.0).(r := w.r, h := w.h)
            && w.r.queue == Single(u, 0.0) && w.r.crawlTimes == map[]
            && w.h == NoHistory.(accepted := multiset{u}, marked := [u])
  {
    Begins(cfg, 0.0);
    assert Offers([]) == {};
    hide Run, Offers, Marks, ListOf, Single;
    es := Enter(cfg, 0.0, [], url);
    es := PutInList(cfg, 0.0, es, cfg.norm(url));
  }

  /** ... released, and given to its handler. */
  lemma {:induction false} FirstCall(cfg: Config, url: string) returns (es: seq<Event>)
    requires Marks(cfg, cfg.norm(url)) != {}
    ensures var w, u := Run(cfg, 0.0, es), cfg.norm(url);
            && Offers(es) == {url} && u in w.running && w.writes == [] && w.adds == []
            && w.h == NoHistory.(accepted := multiset{u}, marked := [u],
                                 missed := w.h.missed, releases := w.h.releases, calls := w.h.calls, begun := w.h.begun)
  {
    es := FirstAdd(cfg, url);
    hide Run, Offers, Marks, ListOf, Single, InList, Unlisted, Stamped, DelayOf;
    var u := cfg.norm(url);
    es := Serve(cfg, 0.0, es, u, 0.0, 0.0);
    es := Call(cfg, 0.0, es, u, 0.0);
  }

  /** What the run below has counted. */
  lemma {:induction false} Escape(cfg: Config, url: string) returns (es: seq<Event>)
    requires Marks(cfg, cfg.norm(url)) != {} && cfg.norm(cfg.norm(url)) != cfg.norm(url)
    ensures var h, u := Run(cfg, 0.0, es).h, cfg.norm(url);
            && Offers(es) == {url} && h.accepted == h.renamedOut == multiset{u}
            && h.renamedIn == multiset{cfg.norm(u)} && h.merged == multiset{}
  {
    es := FirstCall(cfg, url);
    hide Run, Offers, Marks;
    es := Throttle(cfg, es, cfg.norm(url));
  }

  /**
   For every URL whose normal form is not stable, and has a bit in the filter: a run that adds
   nothing else, after which its normal form, which passed the duplicate check, is nowhere, and
   another URL, which never did, has taken its place.
   */
  lemma {:induction false} Escapes(cfg: Config, url: string) returns (es: seq<Event>)
    requires Marks(cfg, cfg.norm(url)) != {} && cfg.norm(cfg.norm(url)) != cfg.norm(url)
    ensures var w, u := Run(cfg, 0.0, es), cfg.norm(url);
            && Offers(es) == {url}
            && w.h.accepted[u] == 1 && Places(w, u) == 0
            && w.h.accepted[cfg.norm(u)] == 0 && Places(w, cfg.norm(u)) == 1
  {
    es := Escape(cfg, url);
    hide Run, Offers, Marks, Places;
    CrawlConservation(cfg, 0.0, es, cfg.norm(url));
    CrawlConservation(cfg, 0.0, es, cfg.norm(cfg.norm(url)));
  }

  /** Whatever happens, no run that adds only this URL renames one. */
  ghost predicate NeverRenamed(cfg: Config, url: string) {
    forall es :: Offers(es) <= {url} ==> Run(cfg, 0.0, es).h.renamedOut == multiset{}
  }

  /** A URL with a bit in the filter is safe from that exactly if normalising it twice is normalising it once. */
  lemma {:induction false} NeverRenamedIff(cfg: Config, url: string)
    requires Marks(cfg, cfg.norm(url)) != {}
    ensures NeverRenamed(cfg, url) <==> cfg.norm(cfg.norm(url)) == cfg.norm(url)
  {
    hide Run, Marks;
    if cfg.norm(cfg.norm(url)) == cfg.norm(url) {
      forall es: seq<Event> | Offers(es) <= {url} ensures Run(cfg, 0.0, es).h.renamedOut == multiset{} {
        forall i | 0 <= i < |es| && es[i].Add? ensures es[i].url == url {
          assert es[i].url in Offers(es);
        }
        StableNeverRenamed(cfg, 0.0, es);
      }
    } else {
      var es := Escape(cfg, url);
      assert cfg.norm(url) in Run(cfg, 0.0, es).h.renamedOut;
    }
  }

  lemma {:induction false} HasMarks(cfg: Config, u: string)
    requires cfg.bloom.hashCount > 0
    ensures Marks(cfg, u) != {}
  {
    assert Bloom.Position(cfg.bloom, u, cfg.bloom.hashCount - 1) in Marks(cfg, u);
  }

  /** With the normalisation of the code, that is what `Stable` says of the parsed URL. */
  lemma {:induction false} StandardNeverRenamedIff(
    bloom: Bloom.Config, def: real, min: real, max: real, factor: real, url: string)
    requires bloom.hashCount > 0
    ensures NeverRenamed(Standard(bloom, def, min, max, factor), url) <==> UrlStrings.Stable(UrlStrings.Parse(url))
  {
    hide UrlStrings.NormalizeString, UrlStrings.Stable, UrlStrings.Parse, NeverRenamed, Marks;
    var cfg := Standard(bloom, def, min, max, factor);
    HasMarks(cfg, cfg.norm(url));
    NeverRenamedIff(cfg, url);
    UrlStrings.NormalizeIdempotentIff(url);
  }

  /** The page `/a;b/` is not: a 429 puts `/a` in its place. */
  lemma {:induction false} TrailingSlashEscapes(bloom: Bloom.Config, def: real, min: real, max: real, factor: real)
    requires bloom.hashCount > 0
    ensures !NeverRenamed(Standard(bloom, def, min, max, factor), "http://h/a;b/")
  {
    hide UrlStrings.NormalizeString, NeverRenamed, Marks;
    var cfg := Standard(bloom, def, min, max, factor);
    HasMarks(cfg, cfg.norm("http://h/a;b/"));
    NeverRenamedIff(cfg, "http://h/a;b/");
    UrlStrings.TrailingSlashMoves();
  }

  // ----- a delay raised after it was read -----

  lemma {:induction false} LetGo(cfg: Config, es: seq<Event>) returns (more: seq<Event>)
    requires Run(cfg, 0.0, es).fetch.Pulling?
    ensures var w := Run(cfg, 0.0, es);
            var d := cfg.domain(w.fetch.url);
            Run(cfg, 0.0, more).h.releases
              == w.h.releases + [Release(d, w.clock, w.fetch.delay, DelayOf(cfg, w.r, d))]
  {
    hide Run, Offers, ZRem, ListOf, InList, RemoveFirst, DelayOf;
    var w := Run(cfg, 0.0, es);
    more := Then(cfg, 0.0, es, Pull);
    more := Then(cfg, 0.0, more, Unlist);
    SameDelay(cfg, w.r, Run(cfg, 0.0, more).r, cfg.domain(w.fetch.url));
    more := Then(cfg, 0.0, more, Stamp(w.clock));
  }

  /** The fetch is about to pull a URL; a worker's delay is stored before the release. */
  lemma {:induction false} RaiseThenRelease(cfg: Config, es: seq<Event>, k: nat) returns (more: seq<Event>)
    requires var w := Run(cfg, 0.0, es);
             && w.fetch.Pulling? && k < |w.writes| && w.writes[k].id.None?
             && w.writes[k].write.domain == cfg.domain(w.fetch.url)
    ensures var w, w' := Run(cfg, 0.0, es), Run(cfg, 0.0, more);
            w'.h.releases == w.h.releases
              + [Release(cfg.domain(w.fetch.url), w.clock, w.fetch.delay, Clamp(cfg, w.writes[k].write.delay))]
  {
    hide Run, Offers, Clamp;
    more := Then(cfg, 0.0, es, StoreDelay(k));
    more := LetGo(cfg, more);
  }

  /**
   Two URLs of one domain: between the fetch that reads the delay for the second and its
   release, the worker of the first stores a longer one. The two releases are closer than the
   delay in force at the second.
   */
  lemma {:induction false} RaisedTooLate(cfg: Config, u: string, v: string, seconds: real) returns (es: seq<Event>)
    requires cfg.norm(u) == u && cfg.norm(v) == v && cfg.domain(u) == cfg.domain(v) && u != v
    requires Marks(cfg, u) != {} && !(Marks(cfg, v) <= Marks(cfg, u))
    requires Clamp(cfg, AdaptiveDelay(cfg, seconds)) > MaxReal(0.0, cfg.defaultDelay)
    ensures var g := Run(cfg, 0.0, es).h.releases;
            && |g| == 2 && g[0].domain == g[1].domain
            && g[1].at - g[0].at < g[1].inForce
  {
    Begins(cfg, 0.0);
    hide Run, Offers, Marks, Clamp, AdaptiveDelay, Single, ListOf, InList, RemoveFirst;
    var d, later := cfg.domain(u), MaxReal(0.0, cfg.defaultDelay);
    es := Launch(cfg, [], u, 0.0);
    es := Enter(cfg, 0.0, es, v);
    es := PutInList(cfg, 0.0, es, v);
    es := Chosen(cfg, 0.0, es, v, 0.0, later);
    es := Answer(cfg, es, u, seconds);
    es := RaiseThenRelease(cfg, es, 0);
  }
}
