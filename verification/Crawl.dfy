/**
 Crawling as a system of interleaved steps. Every Redis command, and every stretch of code
 between two awaits, is one step. Any number of adds (from requests, from workers of blocked
 domains, and after a 429) and of workers run at the same time; one scheduler fetches.
 */
module Crawl {
  import opened Common
  import opened Frontier
  import opened Scheduler
  import Bloom

  /** What an add does next. `offered` marks the re-queue by the worker of a blocked domain. */
  datatype Phase = Checking(offered: bool) | Marking | Queueing | Listing

  datatype AddOp = AddOp(url: string, score: real, phase: Phase)

  /** What the fetch does next; `delay` is the delay it has read for the domain. */
  datatype Fetch =
    | Resting
    | Scanning(cands: seq<string>, i: nat, checked: set<string>)
    | Deciding(cands: seq<string>, i: nat, checked: set<string>, last: Option<real>, delay: real)
    | Pulling(url: string, delay: real)
    | Unlisting(url: string, delay: real)
    | Stamping(url: string, delay: real)

  /** A worker that has to store a delay (`id` is `None`) or to note one, stored by the `id`-th write. */
  datatype DelayOp = DelayOp(url: string, write: Write, id: Option<nat>)

  /** A release: for which domain, when, the delay that the fetch had read, and the one in force by then. */
  datatype Release = Release(domain: string, at: real, delay: real, inForce: real)

  /** What a handler came to: for which domain, what, when, and the domain's delay at that time. */
  datatype Verdict = Verdict(domain: string, o: Result, at: real, delay: real)

  /**
   What has happened so far: how often a URL passed the duplicate check, was queued while
   queued already, was released before it was listed, finished and was dropped; how often a
   re-queue put it in the place of another URL, and another in its place; how often its
   handler was called and answered 429; how many workers began, and what the handlers came
   to; the items marked in the filter; the URLs of which a
   check passed while another add of the same URL was between its check and its marks; the
   releases; the delays stored, and which of them each domain noted last, and which is the
   newest of those it noted.
   */
  datatype History = History(
    accepted: multiset<string>, merged: multiset<string>, missed: multiset<string>,
    finished: multiset<string>, dropped: multiset<string>,
    renamedIn: multiset<string>, renamedOut: multiset<string>,
    calls: multiset<string>, throttles: multiset<string>, begun: nat, verdicts: seq<Verdict>,
    marked: seq<string>, overlapped: set<string>,
    releases: seq<Release>, log: seq<Write>, noted: map<string, nat>, newest: map<string, nat>)

  datatype World = World(
    r: Redis, s: Sched, clock: real,
    adds: seq<AddOp>, fetch: Fetch, spawned: multiset<string>, running: multiset<string>, writes: seq<DelayOp>,
    h: History)

  const NoHistory := History(
    multiset{}, multiset{}, multiset{}, multiset{}, multiset{}, multiset{}, multiset{}, multiset{}, multiset{},
    0, [], [], {}, [], [], map[], map[])

  function Start(t0: real): World {
    World(Cleared, Fresh, t0, [], Resting, multiset{}, multiset{}, [], NoHistory)
  }

  datatype Event =
    | Add(url: string, priority: real)
    | AddStep(k: nat)
    | Scan
    | Look
    | Decide(now: real)
    | Pull
    | Unlist
    | Stamp(at: real)
    | Begin(url: string, now: real)
    | Judge(url: string, o: Result, now: real)
    | StoreDelay(k: nat)
    | NoteDelay(k: nat)

  /** Time does not run backwards, and a step is taken by something that is there to take it. */
  predicate Enabled(cfg: Config, w: World, e: Event) {
    match e
    case Add(_, _) => true
    case AddStep(k) => k < |w.adds|
    case Scan => w.fetch.Resting?
    case Look => w.fetch.Scanning?
    case Decide(now) => w.fetch.Deciding? && w.clock <= now
    case Pull => w.fetch.Pulling?
    case Unlist => w.fetch.Unlisting?
    case Stamp(at) => w.fetch.Stamping? && w.clock <= at
    case Begin(url, now) => url in w.spawned && w.clock <= now
    case Judge(url, _, now) => url in w.running && w.clock <= now
    case StoreDelay(k) => k < |w.writes| && w.writes[k].id.None?
    case NoteDelay(k) => k < |w.writes| && w.writes[k].id.Some?
  }

  // ----- the steps of an add -----

  function MarkingOf(u: string): AddOp -> nat {
    (op: AddOp) => if op.url == u && op.phase == Marking then 1 else 0
  }

  /** The duplicate check. */
  function Checked(cfg: Config, w: World, k: nat): World
    requires k < |w.adds| && w.adds[k].phase.Checking?
  {
    var op := w.adds[k];
    if Seen(cfg, w.r, op.url) then
      var w' := w.(adds := Without(w.adds, k));
      if op.phase.offered then w'.(h := w.h.(dropped := w.h.dropped + multiset{op.url})) else w'
    else
      var w' := w.(adds := w.adds[k := op.(phase := Marking)]);
      if op.phase.offered then w'
      else w'.(h := w.h.(accepted := w.h.accepted + multiset{op.url},
                         overlapped := w.h.overlapped + if Total(MarkingOf(op.url), w.adds) > 0 then {op.url} else {}))
  }

  function AddStepped(cfg: Config, w: World, k: nat): World
    requires k < |w.adds|
  {
    var op := w.adds[k];
    match op.phase
    case Checking(_) => Checked(cfg, w, k)
    case Marking =>
      w.(r := Marked(cfg, w.r, op.url), adds := w.adds[k := op.(phase := Queueing)],
         h := w.h.(marked := w.h.marked + [op.url]))
    case Queueing =>
      w.(r := Queued(w.r, op.url, op.score), adds := w.adds[k := op.(phase := Listing)],
         h := w.h.(merged := if op.url in Urls(w.r.queue) then w.h.merged + multiset{op.url} else w.h.merged))
    case Listing =>
      w.(r := Listed(cfg, w.r, op.url), adds := Without(w.adds, k))
  }

  // ----- the steps of a fetch -----

  function Candidates(q: seq<Entry>): seq<string> {
    if q == [] then [] else [q[0].url] + Candidates(q[1..])
  }

  function Looked(cfg: Config, w: World): Fetch
    requires w.fetch.Scanning?
  {
    var f := w.fetch;
    if f.i >= |f.cands| then Resting
    else
      var d := cfg.domain(f.cands[f.i]);
      if d in f.checked then Scanning(f.cands, f.i + 1, f.checked)
      else
        Deciding(f.cands, f.i, f.checked + {d},
                 if d in w.r.crawlTimes then Some(w.r.crawlTimes[d]) else None, DelayOf(cfg, w.r, d))
  }

  function Decided(f: Fetch, now: real): Fetch
    requires f.Deciding?
  {
    if f.i < |f.cands| && (f.last.Some? ==> now - f.last.value >= f.delay) then Pulling(f.cands[f.i], f.delay)
    else Scanning(f.cands, f.i + 1, f.checked)
  }

  /** How often a URL stands in the list of its domain. */
  function InList(cfg: Config, r: Redis, u: string): nat {
    multiset(ListOf(r, cfg.domain(u)))[u]
  }

  function Fetched(cfg: Config, w: World, e: Event): World
    requires Enabled(cfg, w, e) && (e.Scan? || e.Look? || e.Decide? || e.Pull? || e.Unlist? || e.Stamp?)
  {
    match e
    case Scan => w.(fetch := Scanning(Candidates(Top(w.r.queue)), 0, {}))
    case Look => w.(fetch := Looked(cfg, w))
    case Decide(now) => w.(fetch := Decided(w.fetch, now), clock := now)
    case Pull => w.(r := Pulled(w.r, w.fetch.url), fetch := Unlisting(w.fetch.url, w.fetch.delay))
    case Unlist =>
      w.(r := Unlisted(cfg, w.r, w.fetch.url), fetch := Stamping(w.fetch.url, w.fetch.delay),
         h := w.h.(missed := if InList(cfg, w.r, w.fetch.url) == 0 then w.h.missed + multiset{w.fetch.url} else w.h.missed))
    case Stamp(at) =>
      w.(r := Stamped(cfg, w.r, w.fetch.url, at), clock := at, fetch := Resting,
         spawned := w.spawned + multiset{w.fetch.url},
         h := w.h.(releases := w.h.releases + [Release(cfg.domain(w.fetch.url), at, w.fetch.delay, DelayOf(cfg, w.r, cfg.domain(w.fetch.url)))]))
  }

  // ----- the steps of a worker -----

  /** A URL is queued again under its normal form. */
  function Renamed(h: History, u: string, v: string): History {
    if u == v then h
    else h.(renamedOut := h.renamedOut + multiset{u}, renamedIn := h.renamedIn + multiset{v})
  }

  function Started(cfg: Config, w: World, u: string, now: real): World {
    var (s', go) := Begun(cfg, w.s, u, now);
    var w' := w.(s := s', clock := now, spawned := w.spawned - multiset{u});
    var h := w.h.(begun := w.h.begun + 1);
    if go then w'.(running := w.running + multiset{u}, h := h.(calls := h.calls + multiset{u}))
    else w'.(adds := w.adds + [AddOp(cfg.norm(u), -BLOCKED_PRIORITY, Checking(true))],
             h := Renamed(h, u, cfg.norm(u)))
  }

  function Stopped(cfg: Config, w: World, u: string, o: Result, now: real): World {
    var asked := Asked(cfg, StateOf(w.s, cfg.domain(u)), u, o);
    var w' := w.(s := Ended(cfg, w.s, u, o, now), clock := now, running := w.running - multiset{u},
                 writes := if asked.Some? then w.writes + [DelayOp(u, asked.value, None)] else w.writes);
    var d := cfg.domain(u);
    var h := w.h.(verdicts := w.h.verdicts + [Verdict(d, o, now, StateOf(w.s, d).crawlDelay)]);
    if Throttled(o) then w'.(h := h.(throttles := h.throttles + multiset{u}))
    else w'.(h := h.(finished := h.finished + multiset{u}))
  }

  function Stored(cfg: Config, w: World, k: nat): World
    requires k < |w.writes|
  {
    var op := w.writes[k];
    w.(r := DelaySet(cfg, w.r, op.write.domain, op.write.delay),
       writes := w.writes[k := op.(id := Some(|w.h.log|))], h := w.h.(log := w.h.log + [op.write]))
  }

  function NotedBy(cfg: Config, w: World, k: nat): World
    requires k < |w.writes| && w.writes[k].id.Some?
  {
    var op := w.writes[k];
    var d, id := op.write.domain, op.id.value;
    w.(s := Noted(w.s, d, op.write.noted), writes := Without(w.writes, k),
       adds := if op.write.requeue then w.adds + [AddOp(cfg.norm(op.url), -THROTTLED_PRIORITY, Marking)] else w.adds,
       h := (if op.write.requeue then Renamed(w.h, op.url, cfg.norm(op.url)) else w.h)
            .(noted := w.h.noted[d := id],
              newest := w.h.newest[d := if d in w.h.newest && id < w.h.newest[d] then w.h.newest[d] else id]))
  }

  function Next(cfg: Config, w: World, e: Event): World
    requires Enabled(cfg, w, e)
  {
    match e
    case Add(url, priority) => w.(adds := w.adds + [AddOp(cfg.norm(url), -priority, Checking(false))])
    case AddStep(k) => AddStepped(cfg, w, k)
    case Begin(url, now) => Started(cfg, w, url, now)
    case Judge(url, o, now) => Stopped(cfg, w, url, o, now)
    case StoreDelay(k) => Stored(cfg, w, k)
    case NoteDelay(k) => NotedBy(cfg, w, k)
    case _ => Fetched(cfg, w, e)
  }

  /** A run from an empty crawl; an event that is not enabled in its turn does not happen. */
  function Run(cfg: Config, t0: real, events: seq<Event>): World {
    if events == [] then Start(t0)
    else
      var w, e := Run(cfg, t0, events[..|events| - 1]), events[|events| - 1];
      if Enabled(cfg, w, e) then Next(cfg, w, e) else w
  }

  // ----- where a URL is -----

  function One(b: bool): nat {
    if b then 1 else 0
  }

  /** An add of the URL that is past its marks and not yet queued. */
  function PastOf(u: string): AddOp -> nat {
    (op: AddOp) => if op.url == u && op.phase == Queueing then 1 else 0
  }

  /** The offer of a blocked domain's worker. */
  function OfferOf(u: string): AddOp -> nat {
    (op: AddOp) => if op.url == u && op.phase == Checking(true) then 1 else 0
  }

  function ListingOf(u: string): AddOp -> nat {
    (op: AddOp) => if op.url == u && op.phase == Listing then 1 else 0
  }

  /** A worker that will queue the URL again after a 429. */
  function BackingOf(u: string): DelayOp -> nat {
    (op: DelayOp) => if op.url == u && op.write.requeue then 1 else 0
  }

  function HeldBy(f: Fetch, u: string): nat {
    One((f.Unlisting? || f.Stamping?) && f.url == u)
  }

  function UnlistingBy(f: Fetch, u: string): nat {
    One(f.Unlisting? && f.url == u)
  }

  function InQueue(w: World, u: string): nat {
    One(u in Urls(w.r.queue))
  }

  /** In how many places that a URL reaches only behind its marks it is. */
  function Past(w: World, u: string): nat {
    Total(PastOf(u), w.adds) + InQueue(w, u) + HeldBy(w.fetch, u) + w.spawned[u] + w.running[u]
    + Total(BackingOf(u), w.writes) + w.h.finished[u]
  }

  /**
   In how many places the URL is: being added, offered, queued, being fetched, handed to a
   worker, being handled, backing off after a 429, finished or dropped.
   */
  function Places(w: World, u: string): nat {
    Total(MarkingOf(u), w.adds) + Total(OfferOf(u), w.adds) + Past(w, u) + w.h.dropped[u]
  }

  // ----- what every step keeps, URL by URL -----

  /** All that the laws say of one URL. */
  datatype Tally = Tally(
    marking: nat, offering: nat, adding: nat, listing: nat, queued: nat, held: nat, unlisting: nat,
    spawned: nat, running: nat, backing: nat, finished: nat, dropped: nat,
    accepted: nat, merged: nat, missed: nat, renamedIn: nat, renamedOut: nat,
    inList: nat, calls: nat, throttles: nat, marked: bool, overlapped: bool)
  {
    function Past(): nat {
      adding + queued + held + spawned + running + backing + finished
    }

    /**
     The places of a URL add up to its accepted adds, up to the re-queues that renamed it or
     another into it; nothing is past its marks before they are made; the list of its domain
     follows the queue, up to the times it was queued while queued already or released before
     it was listed; calls of the handler are accounted for; and a second accepted add means
     an overlap, and an overlap a second accepted add or a renaming.
     */
    ghost predicate Balanced() {
      && marking + offering + Past() + dropped + merged + renamedOut == accepted + renamedIn
      && (!marked ==> Past() == 0 && merged == 0 && renamedOut == 0 && offering + dropped <= renamedIn)
      && inList + listing == queued + unlisting + merged + missed
      && calls == throttles + running + finished
      && (accepted >= 2 ==> overlapped) && (overlapped && renamedIn == 0 ==> accepted >= 2)
    }
  }

  function TallyOf(cfg: Config, w: World, u: string): Tally {
    Tally(Total(MarkingOf(u), w.adds), Total(OfferOf(u), w.adds), Total(PastOf(u), w.adds), Total(ListingOf(u), w.adds),
          InQueue(w, u), HeldBy(w.fetch, u), UnlistingBy(w.fetch, u),
          w.spawned[u], w.running[u], Total(BackingOf(u), w.writes), w.h.finished[u], w.h.dropped[u],
          w.h.accepted[u], w.h.merged[u], w.h.missed[u], w.h.renamedIn[u], w.h.renamedOut[u],
          InList(cfg, w.r, u), w.h.calls[u], w.h.throttles[u], u in w.h.marked, u in w.h.overlapped)
  }

  ghost predicate LawsAt(cfg: Config, w: World, u: string) {
    TallyOf(cfg, w, u).Balanced()
  }

  ghost predicate Laws(cfg: Config, w: World) {
    forall u :: LawsAt(cfg, w, u)
  }

  /** The candidates still to be looked at are queued: only the fetch itself removes URLs. */
  ghost predicate FetchKnows(w: World) {
    match w.fetch
    case Scanning(cands, i, _) => forall j :: i <= j < |cands| ==> cands[j] in Urls(w.r.queue)
    case Deciding(cands, i, _, _, _) => i < |cands| && forall j :: i <= j < |cands| ==> cands[j] in Urls(w.r.queue)
    case Pulling(url, _) => url in Urls(w.r.queue)
    case _ => true
  }

  /** A list holds URLs of its own domain only. */
  ghost predicate Homed(cfg: Config, r: Redis) {
    forall d, u :: u in ListOf(r, d) ==> cfg.domain(u) == d
  }

  ghost predicate Sound(cfg: Config, w: World) {
    && w.r.bits == Bloom.Filled(cfg.bloom, w.h.marked)
    && Ranked(w.r.queue) && Homed(cfg, w.r) && FetchKnows(w)
    && w.s.completed + w.s.failed == |w.h.finished|
  }

  /** What has been marked is seen: the filter has no false negatives. */
  lemma {:induction false} MarkedIsSeen(cfg: Config, w: World, u: string)
    requires w.r.bits == Bloom.Filled(cfg.bloom, w.h.marked) && u in w.h.marked
    ensures Seen(cfg, w.r, u)
  {
    Bloom.NoFalseNegatives(cfg.bloom, w.h.marked, u);
  }

  lemma {:induction false} ListedAt(cfg: Config, r: Redis, v: string, u: string)
    ensures InList(cfg, Listed(cfg, r, v), u) == InList(cfg, r, u) + One(u == v)
  {
    var d, r' := cfg.domain(v), Listed(cfg, r, v);
    if cfg.domain(u) == d {
      assert multiset(ListOf(r', d)) == multiset(ListOf(r, d)) + multiset{v};
    } else {
      assert ListOf(r', cfg.domain(u)) == ListOf(r, cfg.domain(u));
    }
  }

  lemma {:induction false} UnlistedAt(cfg: Config, r: Redis, v: string, u: string)
    ensures InList(cfg, Unlisted(cfg, r, v), u) == InList(cfg, r, u) - One(u == v && InList(cfg, r, u) > 0)
  {
    hide RemoveFirst;
    var d, r' := cfg.domain(v), Unlisted(cfg, r, v);
    if cfg.domain(u) == d {
      RemoveFirstBag(ListOf(r, d), v);
    } else {
      assert ListOf(r', cfg.domain(u)) == ListOf(r, cfg.domain(u));
    }
  }

  // ----- adds -----

  /** One add changes its phase. */
  lemma {:induction false} OpMoves(adds: seq<AddOp>, k: nat, op: AddOp, u: string)
    requires k < |adds|
    ensures Total(MarkingOf(u), adds[k := op]) + MarkingOf(u)(adds[k]) == Total(MarkingOf(u), adds) + MarkingOf(u)(op)
    ensures Total(OfferOf(u), adds[k := op]) + OfferOf(u)(adds[k]) == Total(OfferOf(u), adds) + OfferOf(u)(op)
    ensures Total(PastOf(u), adds[k := op]) + PastOf(u)(adds[k]) == Total(PastOf(u), adds) + PastOf(u)(op)
    ensures Total(ListingOf(u), adds[k := op]) + ListingOf(u)(adds[k]) == Total(ListingOf(u), adds) + ListingOf(u)(op)
  {
    hide Total;
    TotalUpdate(MarkingOf(u), adds, k, op);
    TotalUpdate(OfferOf(u), adds, k, op);
    TotalUpdate(PastOf(u), adds, k, op);
    TotalUpdate(ListingOf(u), adds, k, op);
  }

  lemma {:induction false} OpEnds(adds: seq<AddOp>, k: nat, u: string)
    requires k < |adds|
    ensures Total(MarkingOf(u), adds) == Total(MarkingOf(u), Without(adds, k)) + MarkingOf(u)(adds[k])
    ensures Total(OfferOf(u), adds) == Total(OfferOf(u), Without(adds, k)) + OfferOf(u)(adds[k])
    ensures Total(PastOf(u), adds) == Total(PastOf(u), Without(adds, k)) + PastOf(u)(adds[k])
    ensures Total(ListingOf(u), adds) == Total(ListingOf(u), Without(adds, k)) + ListingOf(u)(adds[k])
  {
    hide Total;
    TotalRemove(MarkingOf(u), adds, k);
    TotalRemove(OfferOf(u), adds, k);
    TotalRemove(PastOf(u), adds, k);
    TotalRemove(ListingOf(u), adds, k);
  }

  lemma {:induction false} OpBegins(adds: seq<AddOp>, op: AddOp, u: string)
    ensures Total(MarkingOf(u), adds + [op]) == Total(MarkingOf(u), adds) + MarkingOf(u)(op)
    ensures Total(OfferOf(u), adds + [op]) == Total(OfferOf(u), adds) + OfferOf(u)(op)
    ensures Total(PastOf(u), adds + [op]) == Total(PastOf(u), adds) + PastOf(u)(op)
    ensures Total(ListingOf(u), adds + [op]) == Total(ListingOf(u), adds) + ListingOf(u)(op)
  {
    hide Total;
    TotalPush(MarkingOf(u), adds, op);
    TotalPush(OfferOf(u), adds, op);
    TotalPush(PastOf(u), adds, op);
    TotalPush(ListingOf(u), adds, op);
  }

  lemma {:induction false} PassedCheck(cfg: Config, w: World, k: nat)
    requires k < |w.adds| && w.adds[k].phase.Checking? && !Seen(cfg, w.r, w.adds[k].url)
    ensures var w', op := Checked(cfg, w, k), w.adds[k];
            && w' == w.(adds := w.adds[k := op.(phase := Marking)], h := w'.h)
            && w'.h == (if op.phase.offered then w.h
                        else w.h.(accepted := w.h.accepted + multiset{op.url}, overlapped := w'.h.overlapped))
            && forall u :: u in w'.h.overlapped <==>
                 u in w.h.overlapped || (u == op.url && !op.phase.offered && Total(MarkingOf(u), w.adds) > 0)
  {
    hide Total, Seen;
  }

  /** What a passed check does to a URL's tally. */
  lemma {:induction false} PassedTally(cfg: Config, w: World, k: nat, u: string)
    requires k < |w.adds| && w.adds[k].phase.Checking? && !Seen(cfg, w.r, w.adds[k].url)
    ensures var t, t', op := TallyOf(cfg, w, u), TallyOf(cfg, Checked(cfg, w, k), u), w.adds[k];
            t' == if op.url != u then t
                  else if op.phase.offered then t.(offering := t'.offering, marking := t.marking + 1)
                  else t.(marking := t.marking + 1, accepted := t.accepted + 1,
                          overlapped := t.overlapped || t.marking > 0)
    ensures var t, t', op := TallyOf(cfg, w, u), TallyOf(cfg, Checked(cfg, w, k), u), w.adds[k];
            op.url == u && op.phase.offered ==> t'.offering + 1 == t.offering
  {
    hide Total, Urls, InList, Seen, Checked;
    PassedCheck(cfg, w, k);
    OpMoves(w.adds, k, w.adds[k].(phase := Marking), u);
  }

  /** What a refused check does to it. */
  lemma {:induction false} RefusedTally(cfg: Config, w: World, k: nat, u: string)
    requires k < |w.adds| && w.adds[k].phase.Checking? && Seen(cfg, w.r, w.adds[k].url)
    ensures var t, t', op := TallyOf(cfg, w, u), TallyOf(cfg, Checked(cfg, w, k), u), w.adds[k];
            if op.url == u && op.phase.offered
            then t' == t.(offering := t'.offering, dropped := t.dropped + 1) && t'.offering + 1 == t.offering
            else t' == t
  {
    hide Total, Urls, InList, Seen;
    OpEnds(w.adds, k, u);
  }

  lemma {:induction false} CheckedLaws(cfg: Config, w: World, k: nat, u: string)
    requires Sound(cfg, w) && k < |w.adds| && w.adds[k].phase.Checking? && LawsAt(cfg, w, u)
    ensures LawsAt(cfg, Checked(cfg, w, k), u)
  {
    hide Sound, TallyOf, Checked, Seen;
    if Seen(cfg, w.r, w.adds[k].url) {
      RefusedTally(cfg, w, k, u);
    } else {
      UnseenTally(cfg, w, k);
      PassedTally(cfg, w, k, u);
    }
  }

  /** A URL that the filter has not seen has not been marked. */
  lemma {:induction false} UnseenTally(cfg: Config, w: World, k: nat)
    requires Sound(cfg, w) && k < |w.adds| && !Seen(cfg, w.r, w.adds[k].url)
    ensures !TallyOf(cfg, w, w.adds[k].url).marked
  {
    hide Total, Urls, InList, Ranked, Homed, FetchKnows, Bloom.Filled;
    if w.adds[k].url in w.h.marked {
      MarkedIsSeen(cfg, w, w.adds[k].url);
    }
  }

  lemma {:induction false} MarkingTally(cfg: Config, w: World, k: nat, u: string)
    requires k < |w.adds| && w.adds[k].phase == Marking
    ensures var t, t' := TallyOf(cfg, w, u), TallyOf(cfg, AddStepped(cfg, w, k), u);
            if w.adds[k].url != u then t' == t
            else t' == t.(marking := t'.marking, adding := t.adding + 1, marked := true) && t'.marking + 1 == t.marking
  {
    hide Total, Urls, InList;
    OpMoves(w.adds, k, w.adds[k].(phase := Queueing), u);
    SameLists(cfg, w.r, Marked(cfg, w.r, w.adds[k].url), u);
    MarkedMore(w.h.marked, w.adds[k].url, u);
  }

  lemma {:induction false} MarkedMore(marked: seq<string>, v: string, u: string)
    ensures u in marked + [v] <==> u in marked || u == v
  {
  }

  lemma {:induction false} MarkingLaws(cfg: Config, w: World, k: nat, u: string)
    requires k < |w.adds| && w.adds[k].phase == Marking && LawsAt(cfg, w, u)
    ensures LawsAt(cfg, AddStepped(cfg, w, k), u)
  {
    hide TallyOf, AddStepped;
    MarkingTally(cfg, w, k, u);
  }

  lemma {:induction false} QueueingTally(cfg: Config, w: World, k: nat, u: string)
    requires Ranked(w.r.queue) && k < |w.adds| && w.adds[k].phase == Queueing
    ensures var t, t' := TallyOf(cfg, w, u), TallyOf(cfg, AddStepped(cfg, w, k), u);
            if w.adds[k].url != u then t' == t
            else
              && t' == t.(adding := t'.adding, listing := t.listing + 1, queued := 1, merged := t.merged + t.queued)
              && t'.adding + 1 == t.adding && t.queued <= 1
  {
    hide Total, Urls, Ranked, ZAdd, InList;
    var op := w.adds[k];
    SameLists(cfg, w.r, Queued(w.r, op.url, op.score), u);
    OpMoves(w.adds, k, op.(phase := Listing), u);
    QueueStaysRanked(w.r.queue, op.url, op.score);
  }

  lemma {:induction false} QueueingLaws(cfg: Config, w: World, k: nat, u: string)
    requires Ranked(w.r.queue) && k < |w.adds| && w.adds[k].phase == Queueing && LawsAt(cfg, w, u)
    ensures LawsAt(cfg, AddStepped(cfg, w, k), u)
  {
    hide TallyOf, AddStepped, Ranked;
    QueueingTally(cfg, w, k, u);
  }

  lemma {:induction false} ListingTally(cfg: Config, w: World, k: nat, u: string)
    requires k < |w.adds| && w.adds[k].phase == Listing
    ensures var t, t' := TallyOf(cfg, w, u), TallyOf(cfg, AddStepped(cfg, w, k), u);
            if w.adds[k].url != u then t' == t
            else t' == t.(listing := t'.listing, inList := t.inList + 1) && t'.listing + 1 == t.listing
  {
    hide Total, Urls, Listed, InList;
    OpEnds(w.adds, k, u);
    ListedAt(cfg, w.r, w.adds[k].url, u);
    ListedQueue(cfg, w.r, w.adds[k].url);
  }

  lemma {:induction false} ListingLaws(cfg: Config, w: World, k: nat, u: string)
    requires k < |w.adds| && w.adds[k].phase == Listing && LawsAt(cfg, w, u)
    ensures LawsAt(cfg, AddStepped(cfg, w, k), u)
  {
    hide TallyOf, AddStepped;
    ListingTally(cfg, w, k, u);
  }

  lemma {:induction false} ListedQueue(cfg: Config, r: Redis, url: string)
    ensures Listed(cfg, r, url).queue == r.queue
  {
  }

  // ----- the fetch -----

  lemma {:induction false} PullTally(cfg: Config, w: World, u: string)
    requires w.fetch.Pulling? && FetchKnows(w)
    ensures var t, t' := TallyOf(cfg, w, u), TallyOf(cfg, Fetched(cfg, w, Pull), u);
            if w.fetch.url != u then t' == t
            else t.queued == 1 && t.held == 0 && t' == t.(queued := 0, held := 1, unlisting := 1) && t.unlisting == 0
  {
    hide Total, Urls, ZRem, InList;
    ZRemUrls(w.r.queue, w.fetch.url);
    SameLists(cfg, w.r, Pulled(w.r, w.fetch.url), u);
  }

  lemma {:induction false} UnlistTally(cfg: Config, w: World, u: string)
    requires w.fetch.Unlisting?
    ensures var t, t' := TallyOf(cfg, w, u), TallyOf(cfg, Fetched(cfg, w, Unlist), u);
            if w.fetch.url != u then t' == t
            else
              && t.unlisting == 1
              && if t.inList == 0 then t' == t.(unlisting := 0, missed := t.missed + 1)
                 else t' == t.(unlisting := 0, inList := t'.inList) && t'.inList + 1 == t.inList
  {
    hide Total, Urls, InList, Unlisted;
    UnlistedAt(cfg, w.r, w.fetch.url, u);
    UnlistedQueue(cfg, w.r, w.fetch.url);
  }

  lemma {:induction false} StampTally(cfg: Config, w: World, at: real, u: string)
    requires w.fetch.Stamping? && w.clock <= at
    ensures var t, t' := TallyOf(cfg, w, u), TallyOf(cfg, Fetched(cfg, w, Stamp(at)), u);
            if w.fetch.url != u then t' == t
            else t.held == 1 && t' == t.(held := 0, spawned := t.spawned + 1)
  {
    hide Total, Urls, InList;
    SameLists(cfg, w.r, Stamped(cfg, w.r, w.fetch.url, at), u);
  }

  lemma {:induction false} LookTally(cfg: Config, w: World, e: Event, u: string)
    requires Enabled(cfg, w, e) && (e.Scan? || e.Look? || e.Decide?)
    ensures TallyOf(cfg, Fetched(cfg, w, e), u) == TallyOf(cfg, w, u)
  {
    hide Total, Urls, InList, Candidates, Top, DelayOf;
  }

  lemma {:induction false} FetchedLaws(cfg: Config, w: World, e: Event, u: string)
    requires Enabled(cfg, w, e) && FetchKnows(w) && LawsAt(cfg, w, u)
    requires e.Scan? || e.Look? || e.Decide? || e.Pull? || e.Unlist? || e.Stamp?
    ensures LawsAt(cfg, Fetched(cfg, w, e), u)
  {
    hide TallyOf, Fetched, FetchKnows;
    match e
    case Pull => PullTally(cfg, w, u);
    case Unlist => UnlistTally(cfg, w, u);
    case Stamp(at) => StampTally(cfg, w, at, u);
    case _ => LookTally(cfg, w, e, u);
  }

  lemma {:induction false} SameLists(cfg: Config, r: Redis, r': Redis, u: string)
    requires r'.lists == r.lists
    ensures InList(cfg, r', u) == InList(cfg, r, u)
  {
  }

  lemma {:induction false} UnlistedQueue(cfg: Config, r: Redis, url: string)
    ensures Unlisted(cfg, r, url).queue == r.queue
  {
  }

  // ----- workers -----

  /** What a re-queue of `v` as `n` does to the renamings of `u`. */
  lemma {:induction false} RenamedAt(h: History, v: string, n: string, u: string)
    ensures var h' := Renamed(h, v, n);
            && h'.renamedOut[u] == h.renamedOut[u] + One(v == u && n != u)
            && h'.renamedIn[u] == h.renamedIn[u] + One(n == u && v != u)
            && h' == h.(renamedIn := h'.renamedIn, renamedOut := h'.renamedOut)
  {
  }

  lemma {:induction false} CalledTally(cfg: Config, w: World, v: string, now: real, u: string)
    requires v in w.spawned && Begun(cfg, w.s, v, now).1
    ensures var t, t' := TallyOf(cfg, w, u), TallyOf(cfg, Started(cfg, w, v, now), u);
            if v != u then t' == t
            else
              && t.spawned == t'.spawned + 1
              && t' == t.(spawned := t'.spawned, running := t.running + 1, calls := t.calls + 1)
  {
    hide Total, Urls, Begun, InList;
  }

  lemma {:induction false} OfferedTally(cfg: Config, w: World, v: string, now: real, u: string)
    requires v in w.spawned && !Begun(cfg, w.s, v, now).1
    ensures var t, t', n := TallyOf(cfg, w, u), TallyOf(cfg, Started(cfg, w, v, now), u), cfg.norm(v);
            && t.spawned == t'.spawned + One(v == u)
            && t' == t.(spawned := t'.spawned, offering := t.offering + One(n == u),
                        renamedOut := t.renamedOut + One(v == u && n != u),
                        renamedIn := t.renamedIn + One(n == u && v != u))
  {
    hide Total, Urls, Begun, InList, Renamed;
    OpBegins(w.adds, AddOp(cfg.norm(v), -BLOCKED_PRIORITY, Checking(true)), u);
    RenamedAt(w.h.(begun := w.h.begun + 1), v, cfg.norm(v), u);
  }

  lemma {:induction false} StartedLaws(cfg: Config, w: World, v: string, now: real, u: string)
    requires v in w.spawned && LawsAt(cfg, w, u)
    ensures LawsAt(cfg, Started(cfg, w, v, now), u)
  {
    hide TallyOf, Started, Begun;
    if Begun(cfg, w.s, v, now).1 {
      CalledTally(cfg, w, v, now, u);
    } else {
      OfferedTally(cfg, w, v, now, u);
    }
  }

  lemma {:induction false} StoppedTally(cfg: Config, w: World, v: string, o: Result, now: real, u: string)
    requires v in w.running
    ensures var t, t' := TallyOf(cfg, w, u), TallyOf(cfg, Stopped(cfg, w, v, o, now), u);
            if v != u then t' == t
            else
              && t.running == t'.running + 1
              && if Throttled(o) then t' == t.(running := t'.running, backing := t.backing + 1, throttles := t.throttles + 1)
                 else t' == t.(running := t'.running, finished := t.finished + 1)
  {
    hide Total, Urls, Ended, InList, Asked, StateOf;
    var asked := Asked(cfg, StateOf(w.s, cfg.domain(v)), v, o);
    AskedRequeues(cfg, StateOf(w.s, cfg.domain(v)), v, o);
    if asked.Some? {
      TotalPush(BackingOf(u), w.writes, DelayOp(v, asked.value, None));
    }
    hide Throttled;
  }

  lemma {:induction false} AskedRequeues(cfg: Config, st: DomainState, url: string, o: Result)
    ensures var asked := Asked(cfg, st, url, o);
            Throttled(o) <==> asked.Some? && asked.value.requeue
  {
  }

  lemma {:induction false} StoppedLaws(cfg: Config, w: World, v: string, o: Result, now: real, u: string)
    requires v in w.running && LawsAt(cfg, w, u)
    ensures LawsAt(cfg, Stopped(cfg, w, v, o, now), u)
  {
    hide TallyOf, Stopped;
    StoppedTally(cfg, w, v, o, now, u);
  }

  lemma {:induction false} StoredLaws(cfg: Config, w: World, k: nat, u: string)
    requires k < |w.writes| && LawsAt(cfg, w, u)
    ensures LawsAt(cfg, Stored(cfg, w, k), u)
  {
    hide Total, Urls, Clamp, InList;
    TotalUpdate(BackingOf(u), w.writes, k, w.writes[k].(id := Some(|w.h.log|)));
    SameLists(cfg, w.r, Stored(cfg, w, k).r, u);
    hide Tally.Balanced;
    assert TallyOf(cfg, Stored(cfg, w, k), u) == TallyOf(cfg, w, u);
  }

  lemma {:induction false} NotedTally(cfg: Config, w: World, k: nat, u: string)
    requires k < |w.writes| && w.writes[k].id.Some?
    ensures var t, t', op := TallyOf(cfg, w, u), TallyOf(cfg, NotedBy(cfg, w, k), u), w.writes[k];
            var n := cfg.norm(op.url);
            if !op.write.requeue then t' == t
            else
              && t.backing == t'.backing + One(op.url == u)
              && t' == t.(backing := t'.backing, marking := t.marking + One(n == u),
                          renamedOut := t.renamedOut + One(op.url == u && n != u),
                          renamedIn := t.renamedIn + One(n == u && op.url != u))
  {
    hide Total, Urls, Noted, InList, Renamed;
    var op := w.writes[k];
    TotalRemove(BackingOf(u), w.writes, k);
    OpBegins(w.adds, AddOp(cfg.norm(op.url), -THROTTLED_PRIORITY, Marking), u);
    RenamedAt(w.h, op.url, cfg.norm(op.url), u);
  }

  lemma {:induction false} NotedLaws(cfg: Config, w: World, k: nat, u: string)
    requires k < |w.writes| && w.writes[k].id.Some? && LawsAt(cfg, w, u)
    ensures LawsAt(cfg, NotedBy(cfg, w, k), u)
  {
    hide TallyOf, NotedBy;
    NotedTally(cfg, w, k, u);
  }

  lemma {:induction false} NextLaws(cfg: Config, w: World, e: Event)
    requires Sound(cfg, w) && Laws(cfg, w) && Enabled(cfg, w, e)
    ensures Laws(cfg, Next(cfg, w, e))
  {
    hide LawsAt, AddStepped, Checked, Fetched, Started, Stopped, Stored, NotedBy;
    forall u ensures LawsAt(cfg, Next(cfg, w, e), u) {
      NextLawsAt(cfg, w, e, u);
    }
  }

  lemma {:induction false} NextLawsAt(cfg: Config, w: World, e: Event, u: string)
    requires Sound(cfg, w) && Laws(cfg, w) && Enabled(cfg, w, e)
    ensures LawsAt(cfg, Next(cfg, w, e), u)
  {
    assert LawsAt(cfg, w, u);
    hide LawsAt, Checked, Fetched, Started, Stopped, Stored, NotedBy, AddStepped;
    match e
    case Add(url, priority) => AddLaws(cfg, w, url, priority, u);
    case AddStep(k) =>
      match w.adds[k].phase {
        case Checking(_) => CheckedLaws(cfg, w, k, u); CheckingSteps(cfg, w, k);
        case Marking => MarkingLaws(cfg, w, k, u);
        case Queueing => QueueingLaws(cfg, w, k, u);
        case Listing => ListingLaws(cfg, w, k, u);
      }
    case Begin(url, now) => StartedLaws(cfg, w, url, now, u);
    case Judge(url, o, now) => StoppedLaws(cfg, w, url, o, now, u);
    case StoreDelay(k) => StoredLaws(cfg, w, k, u);
    case NoteDelay(k) => NotedLaws(cfg, w, k, u);
    case _ => FetchedLaws(cfg, w, e, u);
  }

  lemma {:induction false} CheckingSteps(cfg: Config, w: World, k: nat)
    requires k < |w.adds| && w.adds[k].phase.Checking?
    ensures AddStepped(cfg, w, k) == Checked(cfg, w, k)
  {
  }

  lemma {:induction false} AddLaws(cfg: Config, w: World, url: string, priority: real, u: string)
    requires LawsAt(cfg, w, u) && Enabled(cfg, w, Add(url, priority))
    ensures LawsAt(cfg, Next(cfg, w, Add(url, priority)), u)
  {
    hide Total, Urls, InList;
    OpBegins(w.adds, AddOp(cfg.norm(url), -priority, Checking(false)), u);
  }

  // ----- what every step keeps, all in all -----

  lemma {:induction false} TopQueued(q: seq<Entry>, j: nat)
    requires j < |Candidates(Top(q))|
    ensures Candidates(Top(q))[j] in Urls(q)
  {
    CandidateAt(Top(q), j);
    UrlsMember(q, j);
  }

  lemma {:induction false} CandidateAt(q: seq<Entry>, j: nat)
    ensures |Candidates(q)| == |q|
    ensures j < |q| ==> Candidates(q)[j] == q[j].url
  {
    if q != [] {
      CandidateAt(q[1..], if j > 0 then j - 1 else 0);
    }
  }

  lemma {:induction false} ListedHomed(cfg: Config, r: Redis, url: string)
    requires Homed(cfg, r)
    ensures Homed(cfg, Listed(cfg, r, url))
  {
    var r' := Listed(cfg, r, url);
    forall d, u | u in ListOf(r', d) ensures cfg.domain(u) == d {
      assert u in ListOf(r, d) || (u == url && d == cfg.domain(url));
    }
  }

  lemma {:induction false} UnlistedHomed(cfg: Config, r: Redis, url: string)
    requires Homed(cfg, r)
    ensures Homed(cfg, Unlisted(cfg, r, url))
  {
    hide RemoveFirst;
    var r', d0 := Unlisted(cfg, r, url), cfg.domain(url);
    RemoveFirstBag(ListOf(r, d0), url);
    forall d, u | u in ListOf(r', d) ensures cfg.domain(u) == d {
      if d == d0 {
        assert u in multiset(RemoveFirst(ListOf(r, d0), url));
      }
      assert u in ListOf(r, d);
    }
  }

  lemma {:induction false} QueueGrows(w: World, w': World)
    requires FetchKnows(w) && w'.fetch == w.fetch && Urls(w.r.queue) <= Urls(w'.r.queue)
    ensures FetchKnows(w')
  {
  }

  lemma {:induction false} CheckedSound(cfg: Config, w: World, k: nat)
    requires Sound(cfg, w) && k < |w.adds| && w.adds[k].phase.Checking?
    ensures Sound(cfg, Checked(cfg, w, k))
  {
    hide Total, Urls, Ranked, Homed, Seen, Past;
    QueueGrows(w, Checked(cfg, w, k));
    hide FetchKnows;
  }

  lemma {:induction false} AddSteppedSound(cfg: Config, w: World, k: nat)
    requires Sound(cfg, w) && k < |w.adds|
    ensures Sound(cfg, AddStepped(cfg, w, k))
  {
    hide Ranked, Homed, FetchKnows, Urls, ZAdd, Checked, Bloom.Filled, Bloom.AllPositions, ListOf;
    var op := w.adds[k];
    match op.phase {
      case Checking(_) => CheckedSound(cfg, w, k);
      case Marking =>
        Bloom.FilledMore(cfg.bloom, w.h.marked, op.url);
        QueueGrows(w, AddStepped(cfg, w, k));
        assert Homed(cfg, Marked(cfg, w.r, op.url)) by { SameHomed(cfg, w.r, Marked(cfg, w.r, op.url)); }
      case Queueing =>
        QueueStaysRanked(w.r.queue, op.url, op.score);
        QueueGrows(w, AddStepped(cfg, w, k));
        SameHomed(cfg, w.r, Queued(w.r, op.url, op.score));
      case Listing =>
        QueueGrows(w, AddStepped(cfg, w, k));
        ListedHomed(cfg, w.r, op.url);
    }
  }

  lemma {:induction false} SameHomed(cfg: Config, r: Redis, r': Redis)
    requires Homed(cfg, r) && r'.lists == r.lists
    ensures Homed(cfg, r')
  {
    assert forall d :: ListOf(r', d) == ListOf(r, d);
  }

  lemma {:induction false} FetchedSound(cfg: Config, w: World, e: Event)
    requires Sound(cfg, w) && Enabled(cfg, w, e)
    requires e.Scan? || e.Look? || e.Decide? || e.Pull? || e.Unlist? || e.Stamp?
    ensures Sound(cfg, Fetched(cfg, w, e))
  {
    hide Ranked, Homed, Urls, ZRem, Candidates, Top, Bloom.Filled, ListOf, RemoveFirst, InList;
    match e
    case Scan =>
      forall j | 0 <= j < |Candidates(Top(w.r.queue))| ensures Candidates(Top(w.r.queue))[j] in Urls(w.r.queue) {
        TopQueued(w.r.queue, j);
      }
    case Look =>
    case Decide(now) =>
    case Pull =>
      QueueStaysRanked(w.r.queue, w.fetch.url, 0.0);
      SameHomed(cfg, w.r, Pulled(w.r, w.fetch.url));
    case Unlist => UnlistedHomed(cfg, w.r, w.fetch.url);
    case Stamp(at) => SameHomed(cfg, w.r, Stamped(cfg, w.r, w.fetch.url, at));
  }

  /** The parts of `Sound` that steps outside the frontier leave alone. */
  lemma {:induction false} FrameSound(cfg: Config, w: World, w': World)
    requires Sound(cfg, w) && w'.fetch == w.fetch
    requires w'.r.bits == w.r.bits && w'.r.queue == w.r.queue && w'.r.lists == w.r.lists
    requires w'.h.marked == w.h.marked
    requires w'.s.completed + w'.s.failed == |w'.h.finished|
    ensures Sound(cfg, w')
  {
    hide Ranked, Homed, Urls, Bloom.Filled;
    QueueGrows(w, w');
    SameHomed(cfg, w.r, w'.r);
    hide FetchKnows;
  }

  lemma {:induction false} StartedSound(cfg: Config, w: World, url: string, now: real)
    requires Sound(cfg, w) && url in w.spawned
    ensures Sound(cfg, Started(cfg, w, url, now))
  {
    hide Ranked, Homed, Urls, FetchKnows, Bloom.Filled;
    FrameSound(cfg, w, Started(cfg, w, url, now));
  }

  lemma {:induction false} StoppedSound(cfg: Config, w: World, url: string, o: Result, now: real)
    requires Sound(cfg, w) && url in w.running
    ensures Sound(cfg, Stopped(cfg, w, url, o, now))
  {
    hide Ranked, Homed, Urls, FetchKnows, Bloom.Filled, Asked, Judged;
    FrameSound(cfg, w, Stopped(cfg, w, url, o, now));
  }

  lemma {:induction false} NotedSound(cfg: Config, w: World, k: nat)
    requires Sound(cfg, w) && k < |w.writes| && w.writes[k].id.Some?
    ensures Sound(cfg, NotedBy(cfg, w, k))
  {
    hide Ranked, Homed, Urls, FetchKnows, Bloom.Filled;
    FrameSound(cfg, w, NotedBy(cfg, w, k));
  }

  lemma {:induction false} NextSound(cfg: Config, w: World, e: Event)
    requires Sound(cfg, w) && Enabled(cfg, w, e)
    ensures Sound(cfg, Next(cfg, w, e))
  {
    hide Sound, AddStepped, Fetched, Started, Stopped, Stored, NotedBy;
    match e
    case AddStep(k) => AddSteppedSound(cfg, w, k);
    case Begin(url, now) => StartedSound(cfg, w, url, now);
    case Judge(url, o, now) => StoppedSound(cfg, w, url, o, now);
    case NoteDelay(k) => NotedSound(cfg, w, k);
    case Add(url, priority) => QuietSound(cfg, w, e);
    case StoreDelay(k) => QuietSound(cfg, w, e);
    case _ => FetchedSound(cfg, w, e);
  }

  lemma {:induction false} QuietSound(cfg: Config, w: World, e: Event)
    requires Sound(cfg, w) && Enabled(cfg, w, e) && (e.Add? || e.StoreDelay?)
    ensures Sound(cfg, Next(cfg, w, e))
  {
    hide Ranked, Homed, Urls, FetchKnows, Bloom.Filled, Clamp;
    FrameSound(cfg, w, Next(cfg, w, e));
  }

  lemma {:induction false} StartSound(cfg: Config, t0: real)
    ensures Sound(cfg, Start(t0))
  {
  }

  lemma {:induction false} StartLaws(cfg: Config, t0: real)
    ensures Laws(cfg, Start(t0))
  {
    hide LawsAt;
    forall u ensures LawsAt(cfg, Start(t0), u) {
      StartLawsAt(cfg, t0, u);
    }
  }

  lemma {:induction false} StartLawsAt(cfg: Config, t0: real, u: string)
    ensures LawsAt(cfg, Start(t0), u)
  {
    hide TallyOf, Tally.Balanced;
    StartTally(cfg, Start(t0), u);
    ZeroBalanced(TallyOf(cfg, Start(t0), u));
  }

  predicate Zero(t: Tally) {
    && t.marking == t.Past() == t.listing == t.queued == t.unlisting == t.running == t.finished == 0
    && t.accepted == t.merged == t.missed == t.inList == t.calls == t.throttles == 0
    && t.offering == t.dropped == t.renamedIn == t.renamedOut == 0 && !t.overlapped
  }

  lemma {:induction false} ZeroBalanced(t: Tally)
    requires Zero(t)
    ensures t.Balanced()
  {
  }

  lemma {:induction false} StartTally(cfg: Config, w: World, u: string)
    requires w.r == Cleared && w.adds == [] && w.fetch == Resting && w.spawned == w.running == multiset{} && w.writes == []
    requires w.h == NoHistory
    ensures Zero(TallyOf(cfg, w, u))
  {
  }

  lemma {:induction false} Invariants(cfg: Config, t0: real, events: seq<Event>)
    ensures var w := Run(cfg, t0, events); Sound(cfg, w) && Laws(cfg, w)
  {
    hide Sound, Laws, Next, Enabled;
    if events == [] {
      StartSound(cfg, t0);
      StartLaws(cfg, t0);
    } else {
      var n := |events| - 1;
      var w := Run(cfg, t0, events[..n]);
      Invariants(cfg, t0, events[..n]);
      if Enabled(cfg, w, events[n]) {
        NextSound(cfg, w, events[n]);
        NextLaws(cfg, w, events[n]);
      }
    }
  }

  // ----- conservation -----

  /**
   In every interleaving: the places of a URL, the times it was queued while queued already
   and the re-queues that put another URL in its place add up to the times it passed the
   duplicate check and the re-queues that put it in the place of another; and completed plus
   failed counts the finished URLs.
   */
  lemma {:induction false} CrawlConservation(cfg: Config, t0: real, events: seq<Event>, u: string)
    ensures var w := Run(cfg, t0, events);
            && Places(w, u) + w.h.merged[u] + w.h.renamedOut[u] == w.h.accepted[u] + w.h.renamedIn[u]
            && w.s.completed + w.s.failed == |w.h.finished|
  {
    hide Run, Total, Urls, InList;
    Invariants(cfg, t0, events);
    assert LawsAt(cfg, Run(cfg, t0, events), u);
  }

  /** Every accepted add of the URL is in one place, or was merged. */
  ghost predicate Conserved(w: World, u: string) {
    Places(w, u) + w.h.merged[u] == w.h.accepted[u]
  }

  /** ... now and at every earlier moment of the run. */
  ghost predicate AlwaysConserved(cfg: Config, t0: real, events: seq<Event>, u: string) {
    Conserved(Run(cfg, t0, events), u) && (events == [] || AlwaysConserved(cfg, t0, events[..|events| - 1], u))
  }

  /** No re-queue has put another URL in this one's place, or this one in another's. */
  predicate Unrenamed(w: World, u: string) {
    w.h.renamedIn[u] == 0 && w.h.renamedOut[u] == 0
  }

  /** A step renames a URL in or out, not both, and at most once. */
  lemma {:induction false} StepRenames(cfg: Config, w: World, e: Event, u: string)
    requires Enabled(cfg, w, e)
    ensures var h, h' := w.h, Next(cfg, w, e).h;
            || (h'.renamedIn[u] == h.renamedIn[u] && h'.renamedOut[u] == h.renamedOut[u])
            || (h'.renamedIn[u] == h.renamedIn[u] + 1 && h'.renamedOut[u] == h.renamedOut[u])
            || (h'.renamedIn[u] == h.renamedIn[u] && h'.renamedOut[u] == h.renamedOut[u] + 1)
  {
    hide Total, Urls, ListOf, Ended, Begun, Noted, Asked, Clamp, Candidates, Top, InList, StateOf, DelayOf;
    hide Renamed, AddStepped;
    match e
    case AddStep(k) => AddStepUrls(cfg, w, k);
    case Begin(url, now) => RenamedAt(w.h.(begun := w.h.begun + 1), url, cfg.norm(url), u);
    case NoteDelay(k) => RenamedAt(w.h, w.writes[k].url, cfg.norm(w.writes[k].url), u);
    case _ =>
  }

  /**
   The accepted adds of a URL are conserved throughout a run exactly if no re-queue renamed
   it, or another URL into it.
   */
  lemma {:induction false} ConservedIff(cfg: Config, t0: real, events: seq<Event>, u: string)
    ensures AlwaysConserved(cfg, t0, events, u) <==> Unrenamed(Run(cfg, t0, events), u)
  {
    hide Next, Enabled, Places;
    CrawlConservation(cfg, t0, events, u);
    if events != [] {
      var n := |events| - 1;
      ConservedIff(cfg, t0, events[..n], u);
      CrawlConservation(cfg, t0, events[..n], u);
      var w := Run(cfg, t0, events[..n]);
      if Enabled(cfg, w, events[n]) {
        StepRenames(cfg, w, events[n], u);
      }
    }
  }

  // ----- who is renamed -----

  ghost predicate AddsStable(cfg: Config, events: seq<Event>) {
    forall i :: 0 <= i < |events| && events[i].Add? ==> cfg.norm(cfg.norm(events[i].url)) == cfg.norm(events[i].url)
  }

  /** Nothing but normal forms, and no renamings. */
  ghost predicate AllNormal(cfg: Config, w: World) {
    && (forall k :: 0 <= k < |w.adds| ==> cfg.norm(w.adds[k].url) == w.adds[k].url)
    && (forall u :: u in w.h.accepted ==> cfg.norm(u) == u)
    && w.h.renamedIn == w.h.renamedOut == multiset{}
  }

  /** What a worker works on was accepted. */
  lemma {:induction false} WorkedIsNormal(cfg: Config, w: World, u: string)
    requires AllNormal(cfg, w) && LawsAt(cfg, w, u)
    requires w.spawned[u] > 0 || Total(BackingOf(u), w.writes) > 0
    ensures cfg.norm(u) == u
  {
    var t := TallyOf(cfg, w, u);
    assert t.spawned > 0 || t.backing > 0;
    hide Total, Urls, InList;
    assert w.h.accepted[u] > 0;
  }

  lemma {:induction false} BackingAt(writes: seq<DelayOp>, k: nat)
    requires k < |writes| && writes[k].write.requeue
    ensures Total(BackingOf(writes[k].url), writes) > 0
  {
    hide Total;
    TotalAt(BackingOf(writes[k].url), writes, k);
  }

  lemma {:induction false} WorkerNormal(cfg: Config, w: World, e: Event)
    requires AllNormal(cfg, w) && Laws(cfg, w) && Enabled(cfg, w, e) && (e.Begin? || e.NoteDelay?)
    ensures AllNormal(cfg, Next(cfg, w, e))
  {
    hide Ended, Begun, Noted, LawsAt, Total;
    match e
    case Begin(url, now) =>
      assert LawsAt(cfg, w, url);
      WorkedIsNormal(cfg, w, url);
    case NoteDelay(k) =>
      if w.writes[k].write.requeue {
        BackingAt(w.writes, k);
        assert LawsAt(cfg, w, w.writes[k].url);
        WorkedIsNormal(cfg, w, w.writes[k].url);
      }
  }

  /** An add keeps its URL, and only a check that it passes is counted. */
  lemma {:induction false} AddStepUrls(cfg: Config, w: World, k: nat)
    requires k < |w.adds|
    ensures var w', u := AddStepped(cfg, w, k), w.adds[k].url;
            && (w'.h.accepted == w.h.accepted || w'.h.accepted == w.h.accepted + multiset{u})
            && w'.h.renamedIn == w.h.renamedIn && w'.h.renamedOut == w.h.renamedOut
            && (w'.adds == Without(w.adds, k)
                || exists p :: w'.adds == w.adds[k := w.adds[k].(phase := p)])
  {
    hide Total, Seen, Urls, ZAdd, ListOf, Marks, Checked;
    match w.adds[k].phase {
      case Checking(_) =>
        CheckedUrls(cfg, w, k);
      case Marking => assert AddStepped(cfg, w, k).adds == w.adds[k := w.adds[k].(phase := Queueing)];
      case Queueing => assert AddStepped(cfg, w, k).adds == w.adds[k := w.adds[k].(phase := Listing)];
      case Listing =>
    }
  }

  lemma {:induction false} CheckedUrls(cfg: Config, w: World, k: nat)
    requires k < |w.adds| && w.adds[k].phase.Checking?
    ensures var w', u := Checked(cfg, w, k), w.adds[k].url;
            && (w'.h.accepted == w.h.accepted || w'.h.accepted == w.h.accepted + multiset{u})
            && w'.h.renamedIn == w.h.renamedIn && w'.h.renamedOut == w.h.renamedOut
            && (w'.adds == Without(w.adds, k) || w'.adds == w.adds[k := w.adds[k].(phase := Marking)])
  {
    hide Total, Seen, Without;
  }

  lemma {:induction false} AddStepNormal(cfg: Config, w: World, k: nat)
    requires AllNormal(cfg, w) && k < |w.adds|
    ensures AllNormal(cfg, AddStepped(cfg, w, k))
  {
    hide AddStepped;
    AddStepUrls(cfg, w, k);
  }

  lemma {:induction false} NextNormal(cfg: Config, w: World, e: Event)
    requires AllNormal(cfg, w) && Laws(cfg, w) && Enabled(cfg, w, e)
    requires e.Add? ==> cfg.norm(cfg.norm(e.url)) == cfg.norm(e.url)
    ensures AllNormal(cfg, Next(cfg, w, e))
  {
    if e.AddStep? {
      AddStepNormal(cfg, w, e.k);
    } else if e.Begin? || e.NoteDelay? {
      WorkerNormal(cfg, w, e);
    } else {
      hide Total, Urls, ListOf, Ended, Asked, Clamp, Candidates, Top, InList, StateOf, DelayOf, Laws;
    }
  }

  /** If normalising the added URLs twice is normalising them once, nothing is ever renamed. */
  lemma {:induction false} StableNeverRenamed(cfg: Config, t0: real, events: seq<Event>)
    requires AddsStable(cfg, events)
    ensures AllNormal(cfg, Run(cfg, t0, events))
  {
    hide Next, Enabled, Laws;
    if events != [] {
      var n := |events| - 1;
      StableNeverRenamed(cfg, t0, events[..n]);
      Invariants(cfg, t0, events[..n]);
      var w := Run(cfg, t0, events[..n]);
      if Enabled(cfg, w, events[n]) {
        hide AllNormal;
        NextNormal(cfg, w, events[n]);
      }
    }
  }

  // ----- one place -----

  /** The URL has not been in two places, at any moment of the run. */
  ghost predicate AlwaysOnePlace(cfg: Config, t0: real, events: seq<Event>, u: string) {
    Places(Run(cfg, t0, events), u) <= 1 && (events == [] || AlwaysOnePlace(cfg, t0, events[..|events| - 1], u))
  }

  /** The step at which two adds overlap puts the URL in two places. */
  lemma {:induction false} OverlapIsTwoPlaces(cfg: Config, w: World, e: Event, u: string)
    requires Enabled(cfg, w, e) && u !in w.h.overlapped && u in Next(cfg, w, e).h.overlapped
    ensures Places(Next(cfg, w, e), u) >= 2
  {
    hide Next, Places;
    OnlyChecksOverlap(cfg, w, e, u);
    OverlapPlaces(cfg, w, e.k, u);
  }

  lemma {:induction false} OnlyChecksOverlap(cfg: Config, w: World, e: Event, u: string)
    requires Enabled(cfg, w, e) && u !in w.h.overlapped && u in Next(cfg, w, e).h.overlapped
    ensures e.AddStep? && w.adds[e.k].phase.Checking?
    ensures Next(cfg, w, e) == Checked(cfg, w, e.k)
  {
    hide Checked, Urls, ZAdd, ListOf, Ended, Begun, Noted, Asked, Clamp, Candidates, Top, InList, StateOf;
  }

  lemma {:induction false} OverlapPlaces(cfg: Config, w: World, k: nat, u: string)
    requires k < |w.adds| && w.adds[k].phase.Checking? && u !in w.h.overlapped && u in Checked(cfg, w, k).h.overlapped
    ensures Places(Checked(cfg, w, k), u) >= 2
  {
    hide Total, Past, Seen;
    OpMoves(w.adds, k, w.adds[k].(phase := Marking), u);
  }

  lemma {:induction false} AcceptedOnce(cfg: Config, w: World, u: string)
    requires Laws(cfg, w) && w.h.renamedIn[u] == 0
    ensures w.h.accepted[u] >= 2 <==> u in w.h.overlapped
    ensures u !in w.h.overlapped ==> Places(w, u) <= 1
  {
    assert LawsAt(cfg, w, u);
    hide Total, Urls, InList;
  }

  lemma {:induction false} HistoryGrows(cfg: Config, w: World, e: Event, u: string)
    requires Enabled(cfg, w, e)
    ensures u in w.h.overlapped ==> u in Next(cfg, w, e).h.overlapped
    ensures w.h.renamedIn[u] <= Next(cfg, w, e).h.renamedIn[u]
  {
    StepRenames(cfg, w, e, u);
    hide Total, Seen, Urls, ZAdd, ListOf, Ended, Begun, Noted, Asked, Clamp, Candidates, Top, InList, StateOf, Marks, DelayOf;
  }

  /**
   A URL that no re-queue has put in the place of another is never in two places exactly if
   none of its checks passes while another add of it is between its check and its marks.
   */
  lemma {:induction false} OnePlaceIff(cfg: Config, t0: real, events: seq<Event>, u: string)
    requires Run(cfg, t0, events).h.renamedIn[u] == 0
    ensures AlwaysOnePlace(cfg, t0, events, u) <==> u !in Run(cfg, t0, events).h.overlapped
  {
    hide Laws, Next, Enabled, Places;
    Invariants(cfg, t0, events);
    var w := Run(cfg, t0, events);
    AcceptedOnce(cfg, w, u);
    if events != [] {
      var n := |events| - 1;
      var v := Run(cfg, t0, events[..n]);
      if Enabled(cfg, v, events[n]) {
        HistoryGrows(cfg, v, events[n], u);
        if u !in v.h.overlapped && u in w.h.overlapped {
          OverlapIsTwoPlaces(cfg, v, events[n], u);
        }
      }
      OnePlaceIff(cfg, t0, events[..n], u);
    }
  }

  /**
   The handler runs on a URL as often as it answered 429, and once more for each time it is
   running or finished. So it runs more than once beyond its 429s exactly if the URL is in two
   of those places, which takes overlapping adds of it, or a re-queue of another URL as this one.
   */
  lemma {:induction false} HandlerRuns(cfg: Config, t0: real, events: seq<Event>, u: string)
    ensures var w := Run(cfg, t0, events);
            && w.h.calls[u] == w.h.throttles[u] + w.running[u] + w.h.finished[u]
            && (w.h.calls[u] > w.h.throttles[u] + 1 <==> w.running[u] + w.h.finished[u] >= 2)
            && w.h.calls[u] + w.h.merged[u] + w.h.renamedOut[u]
               <= w.h.throttles[u] + w.h.accepted[u] + w.h.renamedIn[u]
            && (w.h.calls[u] > w.h.throttles[u] + 1 ==> u in w.h.overlapped || w.h.renamedIn[u] > 0)
  {
    hide Run;
    Invariants(cfg, t0, events);
    var w := Run(cfg, t0, events);
    assert LawsAt(cfg, w, u);
    hide LawsAt, Laws, Total, Sound;
  }

  // ----- drops -----

  /**
   What the worker of a blocked domain offers to the frontier is refused, and so dropped,
   unless some re-queue put that URL in the place of another.
   */
  lemma {:induction false} OfferRefused(cfg: Config, t0: real, events: seq<Event>, k: nat)
    requires k < |Run(cfg, t0, events).adds| && Run(cfg, t0, events).adds[k].phase == Checking(true)
    ensures var w := Run(cfg, t0, events);
            var w' := Next(cfg, w, AddStep(k));
            w.h.renamedIn[w.adds[k].url] == 0 ==>
              w'.r == w.r && w'.h.dropped == w.h.dropped + multiset{w.adds[k].url}
  {
    hide Run;
    Invariants(cfg, t0, events);
    var w := Run(cfg, t0, events);
    var u := w.adds[k].url;
    assert LawsAt(cfg, w, u);
    TotalAt(OfferOf(u), w.adds, k);
    hide Total;
    if w.h.renamedIn[u] == 0 {
      assert u in w.h.marked;
      MarkedIsSeen(cfg, w, u);
    }
  }

  /** Only that drops a URL, and a worker makes such an offer exactly if its domain is blocked. */
  lemma {:induction false} DroppedIffBlocked(cfg: Config, w: World, e: Event)
    requires Enabled(cfg, w, e)
    ensures Next(cfg, w, e).h.dropped != w.h.dropped ==> e.AddStep? && w.adds[e.k].phase == Checking(true)
    ensures e.Begin? ==>
              (Next(cfg, w, e).running == w.running <==> Blocked(StateOf(w.s, cfg.domain(e.url)), e.now))
    ensures e.Begin? && Blocked(StateOf(w.s, cfg.domain(e.url)), e.now) ==>
              Next(cfg, w, e).adds == w.adds + [AddOp(cfg.norm(e.url), -BLOCKED_PRIORITY, Checking(true))]
  {
    hide Next;
    if e.Begin? {
      BeginOffers(cfg, w, e.url, e.now);
    }
    OnlyOffersDrop(cfg, w, e);
  }

  lemma {:induction false} BeginOffers(cfg: Config, w: World, url: string, now: real)
    requires Enabled(cfg, w, Begin(url, now))
    ensures var w' := Next(cfg, w, Begin(url, now));
            && (w'.running == w.running <==> Blocked(StateOf(w.s, cfg.domain(url)), now))
            && (Blocked(StateOf(w.s, cfg.domain(url)), now) ==>
                  w'.adds == w.adds + [AddOp(cfg.norm(url), -BLOCKED_PRIORITY, Checking(true))])
  {
    hide StateOf;
    assert (w.running + multiset{url})[url] == w.running[url] + 1;
  }

  lemma {:induction false} OnlyOffersDrop(cfg: Config, w: World, e: Event)
    requires Enabled(cfg, w, e)
    ensures Next(cfg, w, e).h.dropped != w.h.dropped ==> e.AddStep? && w.adds[e.k].phase == Checking(true)
  {
    hide Total, Seen, Urls, ZAdd, ListOf, Ended, Begun, Noted, Asked, Clamp, Candidates, Top, InList, StateOf;
  }

  // ----- lists -----

  /** No add is between ZADD and RPUSH, and no release between ZREM and LREM. */
  ghost predicate ListsAtRest(w: World) {
    !w.fetch.Unlisting? && forall k :: 0 <= k < |w.adds| ==> w.adds[k].phase != Listing
  }

  lemma {:induction false} NoneListing(w: World, u: string)
    requires ListsAtRest(w)
    ensures Total(ListingOf(u), w.adds) == 0
  {
    TotalZero(ListingOf(u), w.adds);
  }

  lemma {:induction false} MirroredIs(cfg: Config, r: Redis)
    requires Homed(cfg, r)
    ensures Mirrored(cfg, r) <==> forall u :: InList(cfg, r, u) == One(u in Urls(r.queue))
  {
    hide Urls, ListOf;
    if forall u :: InList(cfg, r, u) == One(u in Urls(r.queue)) {
      forall d, u ensures MirroredAt(cfg, r, d, u) {
        assert InList(cfg, r, u) == One(u in Urls(r.queue));
        if cfg.domain(u) != d {
          assert u !in ListOf(r, d);
        }
      }
    }
    if Mirrored(cfg, r) {
      forall u ensures InList(cfg, r, u) == One(u in Urls(r.queue)) {
        assert MirroredAt(cfg, r, cfg.domain(u), u);
      }
    }
  }

  /**
   In every interleaving, with the lists at rest: a URL stands in the list of its domain once
   if it is queued, and once more for each time it was queued while queued already or
   released before it was listed. So the lists hold exactly the queued URLs, each once,
   exactly if neither has ever happened.
   */
  lemma {:induction false} ListsMirrorQueueIff(cfg: Config, t0: real, events: seq<Event>, u: string)
    requires ListsAtRest(Run(cfg, t0, events))
    ensures var w := Run(cfg, t0, events);
            && InList(cfg, w.r, u) == One(u in Urls(w.r.queue)) + w.h.merged[u] + w.h.missed[u]
            && (Mirrored(cfg, w.r) <==> w.h.merged == multiset{} && w.h.missed == multiset{})
  {
    hide Run;
    Invariants(cfg, t0, events);
    var w := Run(cfg, t0, events);
    forall x ensures InList(cfg, w.r, x) == One(x in Urls(w.r.queue)) + w.h.merged[x] + w.h.missed[x] {
      assert LawsAt(cfg, w, x);
      NoneListing(w, x);
    }
    MirroredIs(cfg, w.r);
    hide InList, Urls, Laws, Sound, Mirrored, ListsAtRest;
    if w.h.merged != multiset{} || w.h.missed != multiset{} {
      var x :| x in w.h.merged || x in w.h.missed;
      assert InList(cfg, w.r, x) > One(x in Urls(w.r.queue));
    }
  }

  /**
   A URL is queued while queued already only if it passed the duplicate check twice, which
   takes overlapping adds, or some re-queue put it in the place of another.
   */
  lemma {:induction false} MergedOverlapped(cfg: Config, t0: real, events: seq<Event>, k: nat)
    requires k < |Run(cfg, t0, events).adds| && Run(cfg, t0, events).adds[k].phase == Queueing
    requires Run(cfg, t0, events).adds[k].url in Urls(Run(cfg, t0, events).r.queue)
    ensures var w := Run(cfg, t0, events);
            var u := w.adds[k].url;
            && w.h.accepted[u] + w.h.renamedIn[u] >= 2
            && (w.h.renamedIn[u] == 0 ==> u in w.h.overlapped)
  {
    hide Run;
    Invariants(cfg, t0, events);
    var w := Run(cfg, t0, events);
    var u := w.adds[k].url;
    assert LawsAt(cfg, w, u);
    TotalAt(PastOf(u), w.adds, k);
    hide Total, Urls;
  }

  /** A release finds its URL unlisted only if some add of that URL is between its ZADD and its RPUSH. */
  lemma {:induction false} MissedUnlisted(cfg: Config, t0: real, events: seq<Event>) returns (k: nat)
    requires var w := Run(cfg, t0, events); w.fetch.Unlisting? && InList(cfg, w.r, w.fetch.url) == 0
    ensures var w := Run(cfg, t0, events);
            k < |w.adds| && w.adds[k].url == w.fetch.url && w.adds[k].phase == Listing
  {
    hide Run;
    Invariants(cfg, t0, events);
    var w := Run(cfg, t0, events);
    assert LawsAt(cfg, w, w.fetch.url);
    k := TotalFrom(ListingOf(w.fetch.url), w.adds);
  }

  // ----- politeness -----

  function Floor(cfg: Config): real {
    MinReal(cfg.minDelay, cfg.defaultDelay)
  }

  function LastCrawl(r: Redis, d: string): Option<real> {
    if d in r.crawlTimes then Some(r.crawlTimes[d]) else None
  }

  /** At time `t` the domain has been left alone for `delay`. */
  ghost predicate Waited(r: Redis, d: string, delay: real, t: real) {
    d in r.crawlTimes ==> t - r.crawlTimes[d] >= delay
  }

  ghost predicate FetchPolite(cfg: Config, w: World) {
    match w.fetch
    case Deciding(cands, i, _, last, delay) =>
      i < |cands| && last == LastCrawl(w.r, cfg.domain(cands[i])) && delay >= Floor(cfg)
    case Pulling(url, delay) => Waited(w.r, cfg.domain(url), delay, w.clock) && delay >= Floor(cfg)
    case Unlisting(url, delay) => Waited(w.r, cfg.domain(url), delay, w.clock) && delay >= Floor(cfg)
    case Stamping(url, delay) => Waited(w.r, cfg.domain(url), delay, w.clock) && delay >= Floor(cfg)
    case _ => true
  }

  ghost predicate Apart(cfg: Config, releases: seq<Release>) {
    forall i, j :: 0 <= i < j < |releases| && releases[i].domain == releases[j].domain ==>
      releases[j].at - releases[i].at >= releases[j].delay >= Floor(cfg)
  }

  ghost predicate Polite(cfg: Config, w: World) {
    && FetchPolite(cfg, w) && Apart(cfg, w.h.releases)
    && (forall i :: 0 <= i < |w.h.releases| ==>
          w.h.releases[i].domain in w.r.crawlTimes
          && w.h.releases[i].at <= w.r.crawlTimes[w.h.releases[i].domain])
    && (forall d :: d in w.r.crawlTimes ==> w.r.crawlTimes[d] <= w.clock)
    && (forall d :: d in w.r.delays ==> w.r.delays[d] >= Floor(cfg))
  }

  lemma {:induction false} QuietPolite(cfg: Config, w: World, w': World)
    requires Polite(cfg, w) && w'.fetch == w.fetch && w.clock <= w'.clock
    requires w'.r.crawlTimes == w.r.crawlTimes && w'.r.delays == w.r.delays && w'.h.releases == w.h.releases
    ensures Polite(cfg, w')
  {
    hide Apart, Floor;
  }

  lemma {:induction false} StampPolite(cfg: Config, w: World, at: real)
    requires Polite(cfg, w) && w.fetch.Stamping? && w.clock <= at
    ensures Polite(cfg, Fetched(cfg, w, Stamp(at)))
  {
    hide Floor;
    var d, g := cfg.domain(w.fetch.url), w.h.releases;
    var g' := g + [Release(d, at, w.fetch.delay, DelayOf(cfg, w.r, d))];
    forall i, j | 0 <= i < j < |g'| && g'[i].domain == g'[j].domain
      ensures g'[j].at - g'[i].at >= g'[j].delay >= Floor(cfg)
    {
      if j < |g| {
        assert g'[i] == g[i] && g'[j] == g[j];
      } else {
        assert g'[i] == g[i];
      }
    }
  }

  lemma {:induction false} FetchedPolite(cfg: Config, w: World, e: Event)
    requires Polite(cfg, w) && FetchKnows(w) && Enabled(cfg, w, e)
    requires e.Scan? || e.Look? || e.Decide? || e.Pull? || e.Unlist? || e.Stamp?
    ensures Polite(cfg, Fetched(cfg, w, e))
  {
    if e.Stamp? {
      StampPolite(cfg, w, e.at);
    } else {
      hide Apart, Candidates, Top, Urls, ZRem, InList, RemoveFirst, ListOf;
    }
  }

  lemma {:induction false} StoredPolite(cfg: Config, w: World, k: nat)
    requires Polite(cfg, w) && k < |w.writes|
    ensures Polite(cfg, Stored(cfg, w, k))
  {
    hide Apart;
  }

  /** Steps that touch neither the fetch nor what it reads. */
  lemma {:induction false} AddStepFrame(cfg: Config, w: World, k: nat)
    requires k < |w.adds|
    ensures var w' := AddStepped(cfg, w, k);
            && w'.fetch == w.fetch && w'.clock == w.clock && w'.s == w.s && w'.writes == w.writes
            && w'.r.crawlTimes == w.r.crawlTimes && w'.r.delays == w.r.delays
            && w'.h.releases == w.h.releases && w'.h.log == w.h.log
            && w'.h.noted == w.h.noted && w'.h.newest == w.h.newest
  {
    hide Total, Urls, ZAdd, Marks, ListOf, Checked;
    if w.adds[k].phase.Checking? {
      CheckedFrame(cfg, w, k);
    }
  }

  lemma {:induction false} CheckedFrame(cfg: Config, w: World, k: nat)
    requires k < |w.adds| && w.adds[k].phase.Checking?
    ensures var w', h' := Checked(cfg, w, k), Checked(cfg, w, k).h;
            && w' == w.(adds := w'.adds, h := h')
            && h' == w.h.(accepted := h'.accepted, overlapped := h'.overlapped, dropped := h'.dropped)
  {
    hide Total, Seen;
  }

  lemma {:induction false} WorkerFrame(cfg: Config, w: World, e: Event)
    requires Enabled(cfg, w, e) && (e.Add? || e.Begin? || e.Judge? || e.NoteDelay?)
    ensures var w' := Next(cfg, w, e);
            && w'.fetch == w.fetch && w.clock <= w'.clock && w'.r == w.r && w'.h.releases == w.h.releases
  {
    hide Asked, Ended, Begun, Noted;
    match e
    case Add(_, _) =>
    case Begin(url, now) =>
    case Judge(url, o, now) => hide StateOf;
    case NoteDelay(k) =>
  }

  lemma {:induction false} NextPolite(cfg: Config, w: World, e: Event)
    requires Polite(cfg, w) && FetchKnows(w) && Enabled(cfg, w, e)
    ensures Polite(cfg, Next(cfg, w, e))
  {
    hide Polite, FetchKnows, AddStepped, Fetched, Stored, Started, Stopped, NotedBy;
    match e
    case AddStep(k) =>
      AddStepFrame(cfg, w, k);
      QuietPolite(cfg, w, Next(cfg, w, e));
    case StoreDelay(k) => StoredPolite(cfg, w, k);
    case Add(_, _) => WorkerFrame(cfg, w, e); QuietPolite(cfg, w, Next(cfg, w, e));
    case Begin(_, _) => WorkerFrame(cfg, w, e); QuietPolite(cfg, w, Next(cfg, w, e));
    case Judge(_, _, _) => WorkerFrame(cfg, w, e); QuietPolite(cfg, w, Next(cfg, w, e));
    case NoteDelay(_) => WorkerFrame(cfg, w, e); QuietPolite(cfg, w, Next(cfg, w, e));
    case _ => FetchedPolite(cfg, w, e);
  }

  lemma {:induction false} RunPolite(cfg: Config, t0: real, events: seq<Event>)
    ensures Polite(cfg, Run(cfg, t0, events))
  {
    hide Polite, Next, Enabled;
    if events == [] {
      StartPolite(cfg, t0);
    } else {
      var n := |events| - 1;
      RunPolite(cfg, t0, events[..n]);
      Invariants(cfg, t0, events[..n]);
      var w := Run(cfg, t0, events[..n]);
      if Enabled(cfg, w, events[n]) {
        NextPolite(cfg, w, events[n]);
      }
    }
  }

  lemma {:induction false} StartPolite(cfg: Config, t0: real)
    ensures Polite(cfg, Start(t0))
  {
  }

  /**
   In every interleaving, two releases for one domain are at least the delay apart that the
   fetch had read for the later one, and that is never less than the smaller of minimum and
   default delay.
   */
  lemma {:induction false} ReleasesArePolite(cfg: Config, t0: real, events: seq<Event>, i: nat, j: nat)
    requires var g := Run(cfg, t0, events).h.releases; i < j < |g| && g[i].domain == g[j].domain
    ensures var g := Run(cfg, t0, events).h.releases;
            g[j].at - g[i].at >= g[j].delay >= MinReal(cfg.minDelay, cfg.defaultDelay)
  {
    RunPolite(cfg, t0, events);
    hide Run;
  }

  /** A release stamped at this time is at least the delay in force away from the last crawl of its domain. */
  ghost predicate StampKeeps(cfg: Config, w: World, at: real)
    requires w.fetch.Stamping? && w.clock <= at
  {
    var d := cfg.domain(w.fetch.url);
    var g := Next(cfg, w, Stamp(at)).h.releases;
    d in w.r.crawlTimes ==> g[|g| - 1].at - w.r.crawlTimes[d] >= g[|g| - 1].inForce
  }

  /**
   The delay in force at a release, which a worker may have raised since the fetch read it: it
   is kept, whenever the release is stamped, exactly if the domain has been left alone for it
   by now; and so it is if it has not been raised.
   */
  lemma {:induction false} InForceKeptIff(cfg: Config, t0: real, events: seq<Event>)
    requires var w := Run(cfg, t0, events);
             w.fetch.Stamping? && cfg.domain(w.fetch.url) in w.r.crawlTimes
    ensures var w := Run(cfg, t0, events);
            var d := cfg.domain(w.fetch.url);
            && ((forall at | w.clock <= at :: StampKeeps(cfg, w, at)) <==>
                  w.clock - w.r.crawlTimes[d] >= DelayOf(cfg, w.r, d))
            && (DelayOf(cfg, w.r, d) <= w.fetch.delay ==> w.clock - w.r.crawlTimes[d] >= DelayOf(cfg, w.r, d))
  {
    RunPolite(cfg, t0, events);
    hide Run, DelayOf;
    var w := Run(cfg, t0, events);
    assert StampKeeps(cfg, w, w.clock) <==> w.clock - w.r.crawlTimes[cfg.domain(w.fetch.url)] >= DelayOf(cfg, w.r, cfg.domain(w.fetch.url));
  }

  // ----- the two copies of a delay -----

  /** The last write for a domain, or -1. */
  function Latest(log: seq<Write>, d: string): (i: int)
    ensures -1 <= i < |log| && (i >= 0 ==> log[i].domain == d)
  {
    if log == [] then -1
    else if log[|log| - 1].domain == d then |log| - 1
    else Latest(log[..|log| - 1], d)
  }

  function StoredAs(i: nat): DelayOp -> nat {
    (op: DelayOp) => if op.id == Some(i) then 1 else 0
  }

  /** Redis holds the last delay stored for a domain. */
  ghost predicate StoreKnows(cfg: Config, w: World, d: string) {
    var i := Latest(w.h.log, d);
    if i < 0 then d !in w.r.delays else d in w.r.delays && w.r.delays[d] == Clamp(cfg, w.h.log[i].delay)
  }

  /** The scheduler holds the delay noted last, or the one a domain begins with. */
  ghost predicate NoteKnows(w: World, d: string) {
    && (d in w.h.noted <==> d in w.h.newest)
    && if d in w.h.noted then
         && w.h.noted[d] <= w.h.newest[d] < |w.h.log|
         && w.h.log[w.h.noted[d]].domain == w.h.log[w.h.newest[d]].domain == d
         && StateOf(w.s, d).crawlDelay == w.h.log[w.h.noted[d]].noted
       else StateOf(w.s, d).crawlDelay == NewDomain.crawlDelay
  }

  /** A delay that has been stored is still to be noted, unless its domain has noted it or a newer one. */
  ghost predicate Awaited(w: World, i: nat) {
    i < |w.h.log| ==>
      || (w.h.log[i].domain in w.h.newest && i <= w.h.newest[w.h.log[i].domain])
      || Total(StoredAs(i), w.writes) > 0
  }

  ghost predicate WriteKnows(w: World, k: nat) {
    k < |w.writes| && w.writes[k].id.Some? ==>
      w.writes[k].id.value < |w.h.log| && w.h.log[w.writes[k].id.value] == w.writes[k].write
  }

  ghost predicate DelaysKnown(cfg: Config, w: World) {
    && (forall d :: StoreKnows(cfg, w, d) && NoteKnows(w, d))
    && (forall i :: Awaited(w, i))
    && (forall k :: WriteKnows(w, k))
  }

  /** If the settings are sane, every delay is stored as it is noted. */
  ghost predicate SameStored(cfg: Config, w: World) {
    && (forall d :: Doubles(cfg, StateOf(w.s, d).crawlDelay))
    && (forall k :: 0 <= k < |w.writes| ==>
          SameBoth(cfg, w.writes[k].write) && Doubles(cfg, w.writes[k].write.noted))
    && (forall i :: 0 <= i < |w.h.log| ==> SameBoth(cfg, w.h.log[i]))
  }

  lemma {:induction false} DelaysFrame(cfg: Config, w: World, w': World)
    requires DelaysKnown(cfg, w)
    requires w'.r.delays == w.r.delays && w'.h.log == w.h.log && w'.writes == w.writes
    requires w'.h.noted == w.h.noted && w'.h.newest == w.h.newest
    requires forall d :: StateOf(w'.s, d).crawlDelay == StateOf(w.s, d).crawlDelay
    ensures DelaysKnown(cfg, w')
    ensures SameStored(cfg, w) ==> SameStored(cfg, w')
  {
    hide Latest, Total, Clamp, SameBoth, Doubles;
    forall d ensures StoreKnows(cfg, w', d) && NoteKnows(w', d) {
      assert StoreKnows(cfg, w, d) && NoteKnows(w, d);
    }
    forall i ensures Awaited(w', i) {
      assert Awaited(w, i);
    }
    forall k ensures WriteKnows(w', k) {
      assert WriteKnows(w, k);
    }
  }

  lemma {:induction false} JudgedDelay(cfg: Config, w: World, u: string, o: Result, now: real, d: string)
    ensures StateOf(Ended(cfg, w.s, u, o, now), d).crawlDelay == StateOf(w.s, d).crawlDelay
    ensures StateOf(Begun(cfg, w.s, u, now).0, d).crawlDelay == StateOf(w.s, d).crawlDelay
  {
  }

  /** What a worker that stops leaves of the two copies. */
  lemma {:induction false} StoppedCopies(cfg: Config, w: World, u: string, o: Result, now: real, d: string)
    requires StoreKnows(cfg, w, d) && NoteKnows(w, d)
    ensures StoreKnows(cfg, Stopped(cfg, w, u, o, now), d) && NoteKnows(Stopped(cfg, w, u, o, now), d)
  {
    hide Asked, Ended, Latest, Clamp, StateOf, Throttled;
    JudgedDelay(cfg, w, u, o, now, d);
  }

  lemma {:induction false} StoppedWrites(cfg: Config, w: World, u: string, o: Result, now: real)
    ensures var w' := Stopped(cfg, w, u, o, now);
            && w'.h.log == w.h.log && w'.h.newest == w.h.newest
            && (w'.writes == w.writes || exists x: DelayOp :: x.id == None && w'.writes == w.writes + [x])
  {
    hide Asked, Ended, StateOf, Throttled;
  }

  lemma {:induction false} StoppedDelays(cfg: Config, w: World, u: string, o: Result, now: real)
    requires DelaysKnown(cfg, w)
    ensures DelaysKnown(cfg, Stopped(cfg, w, u, o, now))
  {
    hide Stopped, Total, StoreKnows, NoteKnows;
    var w' := Stopped(cfg, w, u, o, now);
    StoppedWrites(cfg, w, u, o, now);
    forall d ensures StoreKnows(cfg, w', d) && NoteKnows(w', d) {
      assert StoreKnows(cfg, w, d) && NoteKnows(w, d);
      StoppedCopies(cfg, w, u, o, now, d);
    }
    forall i ensures Awaited(w', i) {
      assert Awaited(w, i);
      if w'.writes != w.writes {
        TotalPush(StoredAs(i), w.writes, w'.writes[|w.writes|]);
      }
    }
    forall k ensures WriteKnows(w', k) {
      assert WriteKnows(w, k);
    }
  }

  lemma {:induction false} StoppedSame(cfg: Config, w: World, u: string, o: Result, now: real)
    requires SaneDelays(cfg) && SameStored(cfg, w)
    ensures SameStored(cfg, Stopped(cfg, w, u, o, now))
  {
    hide Asked, Ended, SameBoth, Doubles, SaneDelays;
    var w' := Stopped(cfg, w, u, o, now);
    var st := StateOf(w.s, cfg.domain(u));
    assert Doubles(cfg, st.crawlDelay);
    if Asked(cfg, st, u, o).Some? {
      AskedSame(cfg, st, u, o);
    }
    forall d ensures Doubles(cfg, StateOf(w'.s, d).crawlDelay) {
      JudgedDelay(cfg, w, u, o, now, d);
    }
  }

  lemma {:induction false} LatestMore(log: seq<Write>, x: Write, d: string)
    ensures Latest(log + [x], d) == if x.domain == d then |log| else Latest(log, d)
  {
    assert (log + [x])[..|log|] == log;
  }

  lemma {:induction false} StoredDelays(cfg: Config, w: World, k: nat)
    requires DelaysKnown(cfg, w) && k < |w.writes| && w.writes[k].id.None?
    ensures DelaysKnown(cfg, Stored(cfg, w, k))
    ensures SameStored(cfg, w) ==> SameStored(cfg, Stored(cfg, w, k))
  {
    hide Latest, Clamp, Total, SameBoth, Doubles;
    var w', op := Stored(cfg, w, k), w.writes[k];
    forall d ensures StoreKnows(cfg, w', d) && NoteKnows(w', d) {
      assert StoreKnows(cfg, w, d) && NoteKnows(w, d);
      LatestMore(w.h.log, op.write, d);
    }
    forall i ensures Awaited(w', i) {
      assert Awaited(w, i);
      TotalUpdate(StoredAs(i), w.writes, k, w'.writes[k]);
    }
    forall j: nat ensures WriteKnows(w', j) {
      assert WriteKnows(w, j);
    }
  }

  lemma {:induction false} NotedFrame(cfg: Config, w: World, k: nat)
    requires k < |w.writes| && w.writes[k].id.Some?
    ensures var w', d, id := NotedBy(cfg, w, k), w.writes[k].write.domain, w.writes[k].id.value;
            && w'.r == w.r && w'.writes == Without(w.writes, k) && w'.h.log == w.h.log
            && w'.s == Noted(w.s, d, w.writes[k].write.noted)
            && w'.h.noted == w.h.noted[d := id]
            && w'.h.newest == w.h.newest[d := if d in w.h.newest && id < w.h.newest[d] then w.h.newest[d] else id]
  {
    hide Noted, Renamed;
    RenamedAt(w.h, w.writes[k].url, cfg.norm(w.writes[k].url), w.writes[k].url);
  }

  lemma {:induction false} NotedDelays(cfg: Config, w: World, k: nat)
    requires DelaysKnown(cfg, w) && k < |w.writes| && w.writes[k].id.Some?
    ensures DelaysKnown(cfg, NotedBy(cfg, w, k))
  {
    hide Latest, Clamp, Total, SameBoth, Doubles, NotedBy;
    var w', op := NotedBy(cfg, w, k), w.writes[k];
    NotedFrame(cfg, w, k);
    assert WriteKnows(w, k);
    forall d ensures StoreKnows(cfg, w', d) && NoteKnows(w', d) {
      assert StoreKnows(cfg, w, d) && NoteKnows(w, d);
    }
    forall i ensures Awaited(w', i) {
      assert Awaited(w, i);
      TotalRemove(StoredAs(i), w.writes, k);
    }
    forall j: nat ensures WriteKnows(w', j) {
      if j < |w'.writes| {
        assert w'.writes[j] == w.writes[if j < k then j else j + 1];
        assert WriteKnows(w, if j < k then j else j + 1);
      }
    }
  }

  lemma {:induction false} NotedSame(cfg: Config, w: World, k: nat)
    requires SameStored(cfg, w) && k < |w.writes| && w.writes[k].id.Some?
    ensures SameStored(cfg, NotedBy(cfg, w, k))
  {
    hide SameBoth, Doubles, NotedBy;
    var w', op := NotedBy(cfg, w, k), w.writes[k];
    NotedFrame(cfg, w, k);
    forall d ensures Doubles(cfg, StateOf(w'.s, d).crawlDelay) {
      if d != op.write.domain {
        assert StateOf(w'.s, d) == StateOf(w.s, d);
      }
    }
    forall j | 0 <= j < |w'.writes|
      ensures SameBoth(cfg, w'.writes[j].write) && Doubles(cfg, w'.writes[j].write.noted)
    {
      assert w'.writes[j] == w.writes[if j < k then j else j + 1];
    }
  }

  lemma {:induction false} FetchDelays(cfg: Config, w: World, e: Event)
    requires Enabled(cfg, w, e) && (e.Scan? || e.Look? || e.Decide? || e.Pull? || e.Unlist? || e.Stamp?)
    ensures var w' := Fetched(cfg, w, e);
            && w'.r.delays == w.r.delays && w'.s == w.s && w'.writes == w.writes
            && w'.h.log == w.h.log && w'.h.noted == w.h.noted && w'.h.newest == w.h.newest
  {
    hide Candidates, Top, ZRem, RemoveFirst, ListOf, InList;
  }

  lemma {:induction false} StartedFrame(cfg: Config, w: World, url: string, now: real)
    ensures var w', h' := Started(cfg, w, url, now), Started(cfg, w, url, now).h;
            && w'.r == w.r && w'.writes == w.writes && w'.s == Begun(cfg, w.s, url, now).0
            && h' == w.h.(calls := h'.calls, begun := w.h.begun + 1, renamedIn := h'.renamedIn, renamedOut := h'.renamedOut)
  {
    hide Begun, Renamed;
    RenamedAt(w.h.(begun := w.h.begun + 1), url, cfg.norm(url), url);
  }

  lemma {:induction false} StartedDelays(cfg: Config, w: World, url: string, now: real)
    requires DelaysKnown(cfg, w)
    ensures DelaysKnown(cfg, Started(cfg, w, url, now))
    ensures SameStored(cfg, w) ==> SameStored(cfg, Started(cfg, w, url, now))
  {
    hide DelaysKnown, SameStored, Begun, StateOf, Started;
    StartedFrame(cfg, w, url, now);
    forall d ensures StateOf(Begun(cfg, w.s, url, now).0, d).crawlDelay == StateOf(w.s, d).crawlDelay {
      JudgedDelay(cfg, w, url, TimedOut, now, d);
    }
    DelaysFrame(cfg, w, Started(cfg, w, url, now));
  }

  /** Steps that touch no delay. */
  lemma {:induction false} QuietDelays(cfg: Config, w: World, e: Event)
    requires DelaysKnown(cfg, w) && Enabled(cfg, w, e)
    requires !e.Begin? && !e.Judge? && !e.StoreDelay? && !e.NoteDelay?
    ensures DelaysKnown(cfg, Next(cfg, w, e))
    ensures SameStored(cfg, w) ==> SameStored(cfg, Next(cfg, w, e))
  {
    hide DelaysKnown, SameStored, AddStepped, Fetched;
    if e.AddStep? {
      AddStepFrame(cfg, w, e.k);
    } else if !e.Add? {
      FetchDelays(cfg, w, e);
    }
    DelaysFrame(cfg, w, Next(cfg, w, e));
  }

  lemma {:induction false} NextDelays(cfg: Config, w: World, e: Event)
    requires DelaysKnown(cfg, w) && Enabled(cfg, w, e)
    ensures DelaysKnown(cfg, Next(cfg, w, e))
    ensures SaneDelays(cfg) && SameStored(cfg, w) ==> SameStored(cfg, Next(cfg, w, e))
  {
    hide DelaysKnown, SameStored, AddStepped, Fetched, Stored, Started, Stopped, NotedBy;
    match e
    case Begin(url, now) => StartedDelays(cfg, w, url, now);
    case Judge(url, o, now) =>
      StoppedDelays(cfg, w, url, o, now);
      if SaneDelays(cfg) && SameStored(cfg, w) {
        StoppedSame(cfg, w, url, o, now);
      }
    case StoreDelay(k) => StoredDelays(cfg, w, k);
    case NoteDelay(k) =>
      NotedDelays(cfg, w, k);
      if SameStored(cfg, w) {
        NotedSame(cfg, w, k);
      }
    case _ => QuietDelays(cfg, w, e);
  }

  lemma {:induction false} StartDelays(cfg: Config, t0: real)
    ensures DelaysKnown(cfg, Start(t0))
    ensures SaneDelays(cfg) ==> SameStored(cfg, Start(t0))
  {
  }

  lemma {:induction false} RunDelays(cfg: Config, t0: real, events: seq<Event>)
    ensures DelaysKnown(cfg, Run(cfg, t0, events))
    ensures SaneDelays(cfg) ==> SameStored(cfg, Run(cfg, t0, events))
  {
    hide DelaysKnown, SameStored, Next, Enabled, SaneDelays;
    if events == [] {
      StartDelays(cfg, t0);
    } else {
      var n := |events| - 1;
      RunDelays(cfg, t0, events[..n]);
      var w := Run(cfg, t0, events[..n]);
      if Enabled(cfg, w, events[n]) {
        NextDelays(cfg, w, events[n]);
      }
    }
  }

  /** No worker has stored a delay for the domain that it has yet to note. */
  ghost predicate DelayAtRest(w: World, d: string) {
    forall k :: 0 <= k < |w.writes| && w.writes[k].write.domain == d ==> w.writes[k].id.None?
  }

  lemma {:induction false} LatestIsLast(log: seq<Write>, d: string, i: nat)
    requires i < |log| && log[i].domain == d
    ensures i <= Latest(log, d)
  {
    if i < |log| - 1 && log[|log| - 1].domain != d {
      LatestIsLast(log[..|log| - 1], d, i);
    }
  }

  lemma {:induction false} RestIsNoted(cfg: Config, w: World, d: string)
    requires DelaysKnown(cfg, w) && DelayAtRest(w, d) && d in w.r.delays
    ensures d in w.h.noted && d in w.h.newest && w.h.noted[d] < |w.h.log|
    ensures Latest(w.h.log, d) == w.h.newest[d]
  {
    assert StoreKnows(cfg, w, d) && NoteKnows(w, d);
    var i := Latest(w.h.log, d);
    assert Awaited(w, i);
    forall k | 0 <= k < |w.writes| ensures StoredAs(i)(w.writes[k]) == 0 {
      assert WriteKnows(w, k);
    }
    TotalZero(StoredAs(i), w.writes);
    LatestIsLast(w.h.log, d, w.h.newest[d]);
  }

  /** The delay that the domain noted last had been stored before one that it noted earlier. */
  predicate Crossed(w: World, d: string) {
    d in w.h.noted && d in w.h.newest && w.h.noted[d] < w.h.newest[d]
  }

  /**
   In every interleaving, with a domain's delay at rest: Redis and the scheduler agree on it
   exactly if the delay stored last, clamped, is the one noted last. For sane settings that is
   if the last worker to note did not come after one that had stored later, or both wrote the
   same delay.
   */
  lemma {:induction false} DelaysAgreeIff(cfg: Config, t0: real, events: seq<Event>, d: string)
    requires DelayAtRest(Run(cfg, t0, events), d) && d in Run(cfg, t0, events).r.delays
    ensures var w := Run(cfg, t0, events);
            && d in w.h.noted && w.h.noted[d] < |w.h.log| && 0 <= Latest(w.h.log, d)
            && (w.r.delays[d] == StateOf(w.s, d).crawlDelay <==>
                  Clamp(cfg, w.h.log[Latest(w.h.log, d)].delay) == w.h.log[w.h.noted[d]].noted)
            && (SaneDelays(cfg) ==>
                  (w.r.delays[d] == StateOf(w.s, d).crawlDelay <==>
                     !Crossed(w, d) || w.h.log[Latest(w.h.log, d)].noted == w.h.log[w.h.noted[d]].noted))
  {
    hide Run;
    RunDelays(cfg, t0, events);
    var w := Run(cfg, t0, events);
    RestIsNoted(cfg, w, d);
    assert StoreKnows(cfg, w, d) && NoteKnows(w, d);
  }
}
