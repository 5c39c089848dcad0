/** Taken without a step in between, the steps of `Crawl` are the operations of `Frontier`. */
module CrawlSteps {
  import opened Common
  import opened Frontier
  import opened Scheduler
  import opened Crawl

  /** Steps from any state on; one that is not enabled in its turn does not happen. */
  function Play(cfg: Config, w: World, events: seq<Event>): World
    decreases |events|
  {
    if events == [] then w
    else Play(cfg, if Enabled(cfg, w, events[0]) then Next(cfg, w, events[0]) else w, events[1..])
  }

  lemma {:induction false} PlayFirst(cfg: Config, w: World, e: Event, rest: seq<Event>)
    ensures Play(cfg, w, [e] + rest) == Play(cfg, if Enabled(cfg, w, e) then Next(cfg, w, e) else w, rest)
  {
    hide Next, Enabled;
    assert ([e] + rest)[1..] == rest;
  }

  lemma {:induction false} PlayOne(cfg: Config, w: World, e: Event)
    ensures Play(cfg, w, [e]) == if Enabled(cfg, w, e) then Next(cfg, w, e) else w
  {
    hide Next, Enabled;
    assert [e][1..] == [];
  }

  // ----- add_url -----

  /** Marks, ZADD and RPUSH of the add in place `k`. */
  function Entering(k: nat): seq<Event> {
    [AddStep(k)] + ([AddStep(k)] + [AddStep(k)])
  }

  function Adding(url: string, priority: real, k: nat): seq<Event> {
    [Add(url, priority)] + ([AddStep(k)] + Entering(k))
  }

  lemma {:induction false} LastOp(adds: seq<AddOp>, a: AddOp, b: AddOp)
    ensures (adds + [a])[|adds| := b] == adds + [b] && Without(adds + [a], |adds|) == adds
  {
  }

  lemma {:induction false} EnterLast(cfg: Config, w: World, adds: seq<AddOp>, u: string, score: real)
    requires w.adds == adds + [AddOp(u, score, Marking)]
    ensures var w' := Play(cfg, w, Entering(|adds|));
            && w'.r == Listed(cfg, Queued(Marked(cfg, w.r, u), u, score), u)
            && w' == w.(r := w'.r, adds := adds, h := w'.h)
  {
    hide Play, Listed, Queued, Marked, Urls;
    var e := AddStep(|adds|);
    var a, b, c := AddOp(u, score, Marking), AddOp(u, score, Queueing), AddOp(u, score, Listing);
    LastOp(adds, a, b);
    LastOp(adds, b, c);
    LastOp(adds, c, c);
    PlayFirst(cfg, w, e, [e] + [e]);
    var w1 := Next(cfg, w, e);
    PlayFirst(cfg, w1, e, [e]);
    PlayOne(cfg, Next(cfg, w1, e), e);
  }

  /** An add that nothing disturbs is `add_url`. */
  lemma {:induction false} UndisturbedAdd(cfg: Config, w: World, url: string, priority: real)
    ensures var w' := Play(cfg, w, Adding(url, priority, |w.adds|));
            w'.r == Added(cfg, w.r, url, priority, false).0 && w' == w.(r := w'.r, h := w'.h)
  {
    hide Play, Listed, Queued, Marked, Urls, Seen, AddStepped;
    var u, k := cfg.norm(url), |w.adds|;
    var w1 := w.(adds := w.adds + [AddOp(u, -priority, Checking(false))]);
    PlayFirst(cfg, w, Add(url, priority), [AddStep(k)] + Entering(k));
    PlayFirst(cfg, w1, AddStep(k), Entering(k));
    CheckLast(cfg, w1, w.adds, u, -priority);
    var w2 := AddStepped(cfg, w1, k);
    if Seen(cfg, w.r, u) {
      PlayIdle(cfg, w2, k);
    } else {
      EnterLast(cfg, w2, w.adds, u, -priority);
    }
  }

  lemma {:induction false} CheckLast(cfg: Config, w: World, adds: seq<AddOp>, u: string, score: real)
    requires w.adds == adds + [AddOp(u, score, Checking(false))]
    ensures var w' := AddStepped(cfg, w, |adds|);
            && w' == w.(adds := w'.adds, h := w'.h)
            && w'.adds == if Seen(cfg, w.r, u) then adds else adds + [AddOp(u, score, Marking)]
  {
    hide Seen, Total;
    LastOp(adds, w.adds[|adds|], AddOp(u, score, Marking));
  }

  lemma {:induction false} PlayIdle(cfg: Config, w: World, k: nat)
    requires k >= |w.adds|
    ensures Play(cfg, w, Entering(k)) == w
  {
    hide Play, Next;
    var e := AddStep(k);
    PlayFirst(cfg, w, e, [e] + [e]);
    PlayFirst(cfg, w, e, [e]);
    PlayOne(cfg, w, e);
  }

  /** The re-queue after a 429 is `add_url` with `force`. */
  lemma {:induction false} UndisturbedRequeue(cfg: Config, w: World, url: string, priority: real)
    ensures var w' := Play(cfg, w.(adds := w.adds + [AddOp(cfg.norm(url), -priority, Marking)]), Entering(|w.adds|));
            w'.r == Added(cfg, w.r, url, priority, true).0 && w' == w.(r := w'.r, h := w'.h)
  {
    hide Play;
    EnterLast(cfg, w.(adds := w.adds + [AddOp(cfg.norm(url), -priority, Marking)]), w.adds, cfg.norm(url), -priority);
  }

  // ----- get_next_url -----

  /** The steps from candidate `i` up to the decision. */
  function ScanSteps(cfg: Config, r: Redis, clock: nat -> real, i: nat, checked: set<string>): seq<Event>
    requires i <= |Top(r.queue)|
    decreases |Top(r.queue)| - i
  {
    if i == |Top(r.queue)| then [Look]
    else
      var d := cfg.domain(Top(r.queue)[i].url);
      if d in checked then [Look] + ScanSteps(cfg, r, clock, i + 1, checked)
      else if Ready(cfg, r, d, clock(i)) then [Look] + [Decide(clock(i))]
      else [Look] + ([Decide(clock(i))] + ScanSteps(cfg, r, clock, i + 1, checked + {d}))
  }

  /** The world with the fetch at candidate `i`. */
  function At(w: World, i: nat, checked: set<string>, now: real): World {
    w.(fetch := Scanning(Candidates(Top(w.r.queue)), i, checked), clock := now)
  }

  lemma {:induction false} LookAt(cfg: Config, w: World, i: nat, checked: set<string>, now: real)
    requires i <= |Top(w.r.queue)|
    ensures Enabled(cfg, At(w, i, checked, now), Look)
    ensures var v := Next(cfg, At(w, i, checked, now), Look);
            if i == |Top(w.r.queue)| then v == w.(fetch := Resting, clock := now)
            else
              var d := cfg.domain(Top(w.r.queue)[i].url);
              if d in checked then v == At(w, i + 1, checked, now)
              else v == w.(fetch := Deciding(Candidates(Top(w.r.queue)), i, checked + {d}, LastCrawl(w.r, d), DelayOf(cfg, w.r, d)),
                           clock := now)
  {
    hide Top, Candidates, DelayOf;
    CandidateAt(Top(w.r.queue), i);
  }

  lemma {:induction false} DecideAt(cfg: Config, w: World, i: nat, checked: set<string>, before: real, now: real)
    requires i < |Top(w.r.queue)| && before <= now
    ensures var d := cfg.domain(Top(w.r.queue)[i].url);
            var v := w.(fetch := Deciding(Candidates(Top(w.r.queue)), i, checked, LastCrawl(w.r, d), DelayOf(cfg, w.r, d)),
                        clock := before);
            && Enabled(cfg, v, Decide(now))
            && Next(cfg, v, Decide(now)) ==
               if Ready(cfg, w.r, d, now)
               then w.(fetch := Pulling(Top(w.r.queue)[i].url, DelayOf(cfg, w.r, d)), clock := now)
               else At(w, i + 1, checked, now)
  {
    hide Top, Candidates, DelayOf;
    CandidateAt(Top(w.r.queue), i);
  }

  /** What the scan leads to: rest, or the URL that `ScanFrom` picks about to be pulled. */
  ghost predicate ScanEnds(cfg: Config, w: World, w': World, clock: nat -> real, pick: Option<nat>) {
    match pick
    case None => w' == w.(fetch := Resting, clock := w'.clock)
    case Some(k) =>
      && k < |Top(w.r.queue)|
      && w' == w.(fetch := Pulling(Top(w.r.queue)[k].url, DelayOf(cfg, w.r, cfg.domain(Top(w.r.queue)[k].url))), clock := clock(k))
  }

  lemma {:induction false} ScanOn(cfg: Config, w: World, clock: nat -> real, i: nat, checked: set<string>, now: real)
    requires Monotone(clock) && i <= |Top(w.r.queue)| && now <= clock(i)
    ensures ScanEnds(cfg, w, Play(cfg, At(w, i, checked, now), ScanSteps(cfg, w.r, clock, i, checked)), clock,
                     ScanFrom(cfg, w.r, clock, i, checked))
    decreases |Top(w.r.queue)| - i
  {
    hide Top, Candidates, DelayOf, Play, Next, Enabled, At, Ready, ScanEnds;
    LookAt(cfg, w, i, checked, now);
    if i == |Top(w.r.queue)| {
      PlayOne(cfg, At(w, i, checked, now), Look);
      assert ScanEnds(cfg, w, w.(fetch := Resting, clock := now), clock, None) by { EndsIdle(cfg, w, clock, now); }
    } else {
      var d := cfg.domain(Top(w.r.queue)[i].url);
      assert clock(i) <= clock(i + 1);
      if d in checked {
        PlayFirst(cfg, At(w, i, checked, now), Look, ScanSteps(cfg, w.r, clock, i + 1, checked));
        ScanOn(cfg, w, clock, i + 1, checked, now);
      } else {
        DecideAt(cfg, w, i, checked + {d}, now, clock(i));
        var v := Next(cfg, At(w, i, checked, now), Look);
        if Ready(cfg, w.r, d, clock(i)) {
          PlayFirst(cfg, At(w, i, checked, now), Look, [Decide(clock(i))]);
          PlayOne(cfg, v, Decide(clock(i)));
          EndsPulling(cfg, w, clock, i);
        } else {
          var rest := ScanSteps(cfg, w.r, clock, i + 1, checked + {d});
          PlayFirst(cfg, At(w, i, checked, now), Look, [Decide(clock(i))] + rest);
          PlayFirst(cfg, v, Decide(clock(i)), rest);
          ScanOn(cfg, w, clock, i + 1, checked + {d}, clock(i));
        }
      }
    }
  }

  lemma {:induction false} EndsIdle(cfg: Config, w: World, clock: nat -> real, now: real)
    ensures ScanEnds(cfg, w, w.(fetch := Resting, clock := now), clock, None)
  {
  }

  lemma {:induction false} EndsPulling(cfg: Config, w: World, clock: nat -> real, k: nat)
    requires k < |Top(w.r.queue)|
    ensures var u := Top(w.r.queue)[k].url;
            ScanEnds(cfg, w, w.(fetch := Pulling(u, DelayOf(cfg, w.r, cfg.domain(u))), clock := clock(k)), clock, Some(k))
  {
  }

  /** ZREM, LREM and the crawl time. */
  function Releasing(at: real): seq<Event> {
    [Pull] + ([Unlist] + [Stamp(at)])
  }

  lemma {:induction false} ReleaseOn(cfg: Config, w: World, at: real)
    requires w.fetch.Pulling? && w.clock <= at
    ensures var w', u := Play(cfg, w, Releasing(at)), w.fetch.url;
            && w'.r == Released(cfg, w.r, u, at)
            && w' == w.(r := w'.r, fetch := Resting, clock := at, spawned := w.spawned + multiset{u}, h := w'.h)
  {
    hide Play, Pulled, Unlisted, Stamped, InList, DelayOf;
    PlayFirst(cfg, w, Pull, [Unlist] + [Stamp(at)]);
    var w1 := Next(cfg, w, Pull);
    PlayFirst(cfg, w1, Unlist, [Stamp(at)]);
    PlayOne(cfg, Next(cfg, w1, Unlist), Stamp(at));
  }

  /** The whole scan. */
  function Searching(cfg: Config, r: Redis, clock: nat -> real): seq<Event> {
    [Event.Scan] + ScanSteps(cfg, r, clock, 0, {})
  }

  /** A fetch that nothing disturbs is `get_next_url`: it picks what `Scan` picks, and releases it. */
  lemma {:induction false} UndisturbedFetch(cfg: Config, w: World, clock: nat -> real, at: real)
    requires Monotone(clock) && w.fetch.Resting? && w.clock <= clock(0)
    requires forall i: nat :: clock(i) <= at
    ensures var w' := Play(cfg, w, Searching(cfg, w.r, clock));
            match Frontier.Scan(cfg, w.r, clock)
            case None => w' == w.(clock := w'.clock)
            case Some(k) =>
              && k < |Top(w.r.queue)| && w'.r == w.r
              && var w'', u := Play(cfg, w', Releasing(at)), Top(w.r.queue)[k].url;
                 && w''.r == Released(cfg, w.r, u, at)
                 && w'' == w.(r := w''.r, clock := at, spawned := w.spawned + multiset{u}, h := w''.h)
  {
    hide Play, Top, Candidates, DelayOf, Released, ScanSteps;
    PlayFirst(cfg, w, Event.Scan, ScanSteps(cfg, w.r, clock, 0, {}));
    ScanOn(cfg, w, clock, 0, {}, w.clock);
    var w' := Play(cfg, w, Searching(cfg, w.r, clock));
    if Frontier.Scan(cfg, w.r, clock).Some? {
      ReleaseOn(cfg, w', at);
    }
  }

  // ----- what a worker does after its handler -----

  function Working(u: string, o: Result, now: real, k: nat, n: nat): seq<Event> {
    [Judge(u, o, now)] + ([StoreDelay(k)] + ([NoteDelay(k)] + Entering(n)))
  }

  lemma {:induction false} LastWrite(writes: seq<DelayOp>, a: DelayOp, b: DelayOp)
    ensures (writes + [a])[|writes| := b] == writes + [b] && Without(writes + [b], |writes|) == writes
  {
  }

  lemma {:induction false} JudgeStep(cfg: Config, w: World, u: string, o: Result, now: real)
    requires u in w.running && w.clock <= now
    ensures var w', x := Next(cfg, w, Judge(u, o, now)), Asked(cfg, StateOf(w.s, cfg.domain(u)), u, o);
            && w' == w.(s := Ended(cfg, w.s, u, o, now), clock := now, running := w.running - multiset{u},
                        writes := w.writes + (if x.Some? then [DelayOp(u, x.value, None)] else []), h := w'.h)
            && w'.h == w.h.(throttles := w'.h.throttles, finished := w'.h.finished, verdicts := w'.h.verdicts)
  {
    hide Ended, Asked, Throttled, StateOf;
  }

  lemma {:induction false} StoreLast(cfg: Config, w: World, writes: seq<DelayOp>, op: DelayOp)
    requires w.writes == writes + [op] && op.id == None
    ensures Next(cfg, w, StoreDelay(|writes|))
         == w.(r := DelaySet(cfg, w.r, op.write.domain, op.write.delay),
               writes := writes + [op.(id := Some(|w.h.log|))], h := w.h.(log := w.h.log + [op.write]))
  {
    hide DelaySet;
    LastWrite(writes, op, op.(id := Some(|w.h.log|)));
  }

  lemma {:induction false} NoteLast(cfg: Config, w: World, writes: seq<DelayOp>, op: DelayOp)
    requires w.writes == writes + [op] && op.id.Some?
    ensures var w', n := Next(cfg, w, NoteDelay(|writes|)), cfg.norm(op.url);
            && w' == w.(s := Noted(w.s, op.write.domain, op.write.noted), writes := writes,
                        adds := w.adds + (if op.write.requeue then [AddOp(n, -THROTTLED_PRIORITY, Marking)] else []), h := w'.h)
            && w'.h == (if op.write.requeue then Renamed(w.h, op.url, n) else w.h).(noted := w'.h.noted, newest := w'.h.newest)
  {
    hide Noted, Renamed;
    LastWrite(writes, op, op);
  }

  /** A worker that has a delay to store and note. */
  lemma {:induction false} StoreAndNote(cfg: Config, w: World, writes: seq<DelayOp>, op: DelayOp)
    requires w.writes == writes + [op] && op.id == None
    ensures var k, n := |writes|, |w.adds|;
            var w' := Play(cfg, w, [StoreDelay(k)] + ([NoteDelay(k)] + Entering(n)));
            var r := DelaySet(cfg, w.r, op.write.domain, op.write.delay);
            && w'.s == Noted(w.s, op.write.domain, op.write.noted)
            && w'.r == (if op.write.requeue then Added(cfg, r, op.url, THROTTLED_PRIORITY, true).0 else r)
            && w' == w.(r := w'.r, s := w'.s, writes := writes, h := w'.h)
  {
    hide Play, Next, Noted, DelaySet, Added, Entering, Renamed;
    var k, n, op' := |writes|, |w.adds|, op.(id := Some(|w.h.log|));
    PlayFirst(cfg, w, StoreDelay(k), [NoteDelay(k)] + Entering(n));
    StoreLast(cfg, w, writes, op);
    var w2 := Next(cfg, w, StoreDelay(k));
    PlayFirst(cfg, w2, NoteDelay(k), Entering(n));
    NoteLast(cfg, w2, writes, op');
    var w3 := Next(cfg, w2, NoteDelay(k));
    if op.write.requeue {
      UndisturbedRequeue(cfg, w3.(adds := w.adds), op.url, THROTTLED_PRIORITY);
      assert w3.(adds := w.adds).(adds := w3.adds) == w3;
    } else {
      PlayIdle(cfg, w3, n);
    }
  }

  /** A worker whose handler has answered, undisturbed: what it stores, notes and queues again is `WorkedOff`. */
  lemma {:induction false} UndisturbedWorker(cfg: Config, w: World, u: string, o: Result, now: real)
    requires u in w.running && w.clock <= now
    ensures var w' := Play(cfg, w, Working(u, o, now, |w.writes|, |w.adds|));
            && (w'.s, w'.r) == WorkedOff(cfg, w.s, w.r, u, o, now)
            && w' == w.(r := w'.r, s := w'.s, clock := now, running := w.running - multiset{u}, h := w'.h)
  {
    hide Play, Next, Ended, Noted, Asked, DelaySet, Added, Entering, StateOf;
    var k, n := |w.writes|, |w.adds|;
    PlayFirst(cfg, w, Judge(u, o, now), [StoreDelay(k)] + ([NoteDelay(k)] + Entering(n)));
    JudgeStep(cfg, w, u, o, now);
    var w1 := Next(cfg, w, Judge(u, o, now));
    AskedSays(cfg, StateOf(w.s, cfg.domain(u)), u, o);
    match Asked(cfg, StateOf(w.s, cfg.domain(u)), u, o)
    case None =>
      assert w.writes + [] == w.writes;
      PlayFirst(cfg, w1, StoreDelay(k), [NoteDelay(k)] + Entering(n));
      PlayFirst(cfg, w1, NoteDelay(k), Entering(n));
      PlayIdle(cfg, w1, n);
    case Some(x) => StoreAndNote(cfg, w1, w.writes, DelayOp(u, x, None));
  }

  lemma {:induction false} AskedSays(cfg: Config, st: DomainState, u: string, o: Result)
    ensures Asked(cfg, st, u, o).Some? ==> Asked(cfg, st, u, o).value.domain == cfg.domain(u)
  {
  }
}
