/** Adds and fetches of a frontier, one after the other: what is fetched first. */
module FrontierRuns {
  import opened Common
  import opened UrlNormal
  import opened Frontier

  /** The operations of a frontier, one after the other. */
  datatype Op =
    | Offer(url: string, priority: real, force: bool)
    | Fetch(clock: nat -> real, at: real)
    | Slow(domain: string, delay: real)

  /** The store, and the priority that each queued URL was added with last. */
  datatype Shelf = Shelf(r: Redis, priority: map<string, real>)

  function Next(cfg: Config, s: Shelf, op: Op): Shelf {
    match op
    case Offer(url, priority, force) =>
      var (r', added) := Added(cfg, s.r, url, priority, force);
      Shelf(r', if added then s.priority[cfg.norm(url) := priority] else s.priority)
    case Fetch(clock, at) =>
      (match Scan(cfg, s.r, clock)
       case None => s
       case Some(k) =>
         if k < |Top(s.r.queue)| then
           var u := Top(s.r.queue)[k].url;
           Shelf(Released(cfg, s.r, u, at), s.priority - {u})
         else s)
    case Slow(domain, delay) => s.(r := DelaySet(cfg, s.r, domain, delay))
  }

  function Run(cfg: Config, ops: seq<Op>): Shelf {
    if ops == [] then Shelf(Cleared, map[])
    else Next(cfg, Run(cfg, ops[..|ops| - 1]), ops[|ops| - 1])
  }

  /** Every entry has the score of its URL's priority. */
  ghost predicate Scored(q: seq<Entry>, priority: map<string, real>) {
    forall e :: e in q ==> e.url in priority && e.score == -priority[e.url]
  }

  /** Every URL with a priority has such an entry. */
  ghost predicate Stocked(q: seq<Entry>, priority: map<string, real>) {
    forall u :: u in priority ==> Entry(u, -priority[u]) in q
  }

  ghost predicate Priced(q: seq<Entry>, priority: map<string, real>) {
    Ranked(q) && Scored(q, priority) && Stocked(q, priority)
  }

  lemma {:induction false} AddScored(q: seq<Entry>, priority: map<string, real>, n: string, p: real)
    requires Scored(q, priority)
    ensures Scored(ZAdd(q, n, -p), priority[n := p])
  {
    hide ZAdd;
    forall e | e in ZAdd(q, n, -p) ensures e.url in priority[n := p] && e.score == -priority[n := p][e.url] {
      ZAddHolds(q, n, -p, e);
    }
  }

  lemma {:induction false} AddStocked(q: seq<Entry>, priority: map<string, real>, n: string, p: real)
    requires Stocked(q, priority)
    ensures Stocked(ZAdd(q, n, -p), priority[n := p])
  {
    hide ZAdd;
    var all := priority[n := p];
    forall u | u in all ensures Entry(u, -all[u]) in ZAdd(q, n, -p) {
      ZAddHolds(q, n, -p, Entry(u, -all[u]));
    }
  }

  lemma {:induction false} RemoveScored(q: seq<Entry>, priority: map<string, real>, n: string)
    requires Scored(q, priority)
    ensures Scored(ZRem(q, n), priority - {n})
  {
    hide ZRem;
    var rest := priority - {n};
    forall e | e in ZRem(q, n) ensures e.url in rest && e.score == -rest[e.url] {
      ZRemHolds(q, n, e);
    }
  }

  lemma {:induction false} RemoveStocked(q: seq<Entry>, priority: map<string, real>, n: string)
    requires Stocked(q, priority)
    ensures Stocked(ZRem(q, n), priority - {n})
  {
    hide ZRem;
    var rest := priority - {n};
    forall u | u in rest ensures Entry(u, -rest[u]) in ZRem(q, n) {
      ZRemHolds(q, n, Entry(u, -priority[u]));
    }
  }

  lemma {:induction false} AddPriced(q: seq<Entry>, priority: map<string, real>, n: string, p: real)
    requires Priced(q, priority)
    ensures Priced(ZAdd(q, n, -p), priority[n := p])
  {
    hide Ranked, ZAdd, Scored, Stocked;
    QueueStaysRanked(q, n, -p);
    AddScored(q, priority, n, p);
    AddStocked(q, priority, n, p);
  }

  lemma {:induction false} RemovePriced(q: seq<Entry>, priority: map<string, real>, n: string)
    requires Priced(q, priority)
    ensures Priced(ZRem(q, n), priority - {n})
  {
    hide Ranked, ZRem, Scored, Stocked;
    QueueStaysRanked(q, n, 0.0);
    RemoveScored(q, priority, n);
    RemoveStocked(q, priority, n);
  }

  lemma {:induction false} RunPriced(cfg: Config, ops: seq<Op>)
    ensures var s := Run(cfg, ops); Priced(s.r.queue, s.priority)
  {
    hide Priced, ZAdd, ZRem, RemoveFirst, Seen, Scan, Top;
    if ops == [] {
      NothingPriced();
    } else {
      var s := Run(cfg, ops[..|ops| - 1]);
      RunPriced(cfg, ops[..|ops| - 1]);
      match ops[|ops| - 1]
      case Offer(url, priority, force) => AddPriced(s.r.queue, s.priority, cfg.norm(url), priority);
      case Fetch(clock, at) =>
        match Scan(cfg, s.r, clock) {
          case None =>
          case Some(k) =>
            if k < |Top(s.r.queue)| {
              RemovePriced(s.r.queue, s.priority, Top(s.r.queue)[k].url);
            }
        }
      case Slow(domain, delay) =>
    }
  }

  lemma {:induction false} NothingPriced()
    ensures Priced([], map[])
  {
  }

  /**
   After any operations: the next fetch returns a URL whose domain is ready, and no queued URL
   whose domain was ready when the scan began was added with a strictly higher priority; among
   equal priorities the one that precedes is returned. It returns nothing only if no domain of
   the first 100 in that order was ready.
   */
  lemma {:induction false} HighestPriorityFirst(cfg: Config, ops: seq<Op>, clock: nat -> real)
    requires Monotone(clock)
    ensures var s := Run(cfg, ops);
            match Scan(cfg, s.r, clock)
            case None =>
              forall j :: 0 <= j < |s.r.queue| && j < 100 ==> !Ready(cfg, s.r, cfg.domain(s.r.queue[j].url), clock(0))
            case Some(k) =>
              && k < |s.r.queue| && k < 100
              && var u := s.r.queue[k].url;
                 && u in s.priority && Ready(cfg, s.r, cfg.domain(u), clock(k))
                 && forall v :: v in s.priority && Ready(cfg, s.r, cfg.domain(v), clock(0)) ==>
                      s.priority[v] <= s.priority[u] && (s.priority[v] == s.priority[u] ==> Precedes(u, v))
  {
    hide Run, Scan, Ranked, Precedes, Ready;
    var s := Run(cfg, ops);
    RunPriced(cfg, ops);
    ScanPicksFirstReady(cfg, s.r, clock);
    var q := s.r.queue;
    match Scan(cfg, s.r, clock)
    case None =>
      forall j | 0 <= j < |q| && j < 100 ensures !Ready(cfg, s.r, cfg.domain(q[j].url), clock(0)) {
        assert !CandidateReady(cfg, s.r, j, clock(0));
      }
    case Some(k) =>
      var u := Top(q)[k].url;
      assert Top(q)[k] == q[k] && q[k] in q;
      forall v | v in s.priority && Ready(cfg, s.r, cfg.domain(v), clock(0))
        ensures s.priority[v] <= s.priority[u] && (s.priority[v] == s.priority[u] ==> Precedes(u, v))
      {
        var j :| 0 <= j < |q| && q[j] == Entry(v, -s.priority[v]);
        if j < k {
          NotReadyBefore(cfg, s.r, clock, k, j);
        } else if j > k {
          RankedOrder(q, k, j);
        } else {
          SelfPrecedes(u);
        }
      }
  }

  lemma {:induction false} NotReadyBefore(cfg: Config, r: Redis, clock: nat -> real, k: nat, j: nat)
    requires Monotone(clock) && Scan(cfg, r, clock) == Some(k) && j < k < |r.queue|
    ensures !Ready(cfg, r, cfg.domain(r.queue[j].url), clock(0))
  {
    hide Scan, Ready;
    ScanPicksFirstReady(cfg, r, clock);
    assert !CandidateReady(cfg, r, j, clock(0));
  }

  lemma {:induction false} SelfPrecedes(u: string)
    ensures Precedes(u, u)
  {
  }
}
