/**
 The URL frontier: a Bloom filter, a priority queue, per-domain lists that mirror it, and
 politeness delays. The functions on `Redis` are its single commands; `add_url` and one scan
 of `get_next_url` are sequences of them, which `Crawl` interleaves.
 */
module Frontier {
  import opened Common
  import opened UrlNormal
  import UrlStrings
  import Bloom

  /**
   Normalisation and domain are functions of the URL, and nothing below depends on which;
   `Standard` has those of the code. The rest are the filter and the politeness settings.
   */
  datatype Config = Config(
    norm: string -> string, domain: string -> string, bloom: Bloom.Config,
    defaultDelay: real, minDelay: real, maxDelay: real, politeness: real)

  function Standard(bloom: Bloom.Config, defaultDelay: real, minDelay: real, maxDelay: real, politeness: real): Config {
    Config(UrlStrings.NormalizeString, UrlStrings.DomainOf, bloom, defaultDelay, minDelay, maxDelay, politeness)
  }

  // ----- the priority queue, a Redis sorted set -----

  /** The score is the negated priority: small scores come first. */
  datatype Entry = Entry(url: string, score: real)

  /** Redis orders by score and, among equal scores, by member. */
  predicate Before(a: Entry, b: Entry) {
    a.score < b.score || (a.score == b.score && LexLe(a.url, b.url))
  }

  function Urls(q: seq<Entry>): set<string> {
    if q == [] then {} else {q[0].url} + Urls(q[1..])
  }

  function ZRem(q: seq<Entry>, url: string): seq<Entry> {
    if q == [] then []
    else if q[0].url == url then ZRem(q[1..], url)
    else [q[0]] + ZRem(q[1..], url)
  }

  function ZInsert(q: seq<Entry>, e: Entry): seq<Entry> {
    if q == [] then [e]
    else if Before(e, q[0]) then [e] + q
    else [q[0]] + ZInsert(q[1..], e)
  }

  function ZAdd(q: seq<Entry>, url: string, score: real): seq<Entry> {
    ZInsert(ZRem(q, url), Entry(url, score))
  }

  // ----- lists -----

  /** `LREM key 1 url`. */
  function RemoveFirst(s: seq<string>, url: string): seq<string> {
    if s == [] then [] else if s[0] == url then s[1..] else [s[0]] + RemoveFirst(s[1..], url)
  }

  // ----- the keys of the frontier -----

  datatype Redis = Redis(
    bits: set<nat>, queue: seq<Entry>, lists: map<string, seq<string>>,
    crawlTimes: map<string, real>, delays: map<string, real>)

  const Cleared := Redis({}, [], map[], map[], map[])

  function ListOf(r: Redis, domain: string): seq<string> {
    if domain in r.lists then r.lists[domain] else []
  }

  function DelayOf(cfg: Config, r: Redis, domain: string): real {
    if domain in r.delays then r.delays[domain] else cfg.defaultDelay
  }

  function Clamp(cfg: Config, delay: real): real {
    MaxReal(cfg.minDelay, MinReal(cfg.maxDelay, delay))
  }

  /** The politeness formula: the response time times a factor. */
  function AdaptiveDelay(cfg: Config, responseTime: real): real {
    cfg.politeness * responseTime
  }

  /** The bits of a URL in the filter. */
  function Marks(cfg: Config, url: string): set<nat> {
    Bloom.AllPositions(cfg.bloom, url)
  }

  predicate Seen(cfg: Config, r: Redis, url: string) {
    Marks(cfg, url) <= r.bits
  }

  // ----- the commands of `add_url` -----

  function Marked(cfg: Config, r: Redis, url: string): Redis {
    r.(bits := r.bits + Marks(cfg, url))
  }

  function Queued(r: Redis, url: string, score: real): Redis {
    r.(queue := ZAdd(r.queue, url, score))
  }

  function Listed(cfg: Config, r: Redis, url: string): Redis {
    var d := cfg.domain(url);
    r.(lists := r.lists[d := ListOf(r, d) + [url]])
  }

  /** `add_url`, undisturbed. */
  function Added(cfg: Config, r: Redis, url: string, priority: real, force: bool): (Redis, bool) {
    var n := cfg.norm(url);
    if !force && Seen(cfg, r, n) then (r, false)
    else (Listed(cfg, Queued(Marked(cfg, r, n), n, -priority), n), true)
  }

  /** Whether the domain may be crawled at time `t`. */
  predicate Ready(cfg: Config, r: Redis, domain: string, t: real) {
    domain in r.crawlTimes ==> t - r.crawlTimes[domain] >= DelayOf(cfg, r, domain)
  }

  // ----- the commands that release a URL -----

  function Pulled(r: Redis, url: string): Redis {
    r.(queue := ZRem(r.queue, url))
  }

  function Unlisted(cfg: Config, r: Redis, url: string): Redis {
    var d := cfg.domain(url);
    r.(lists := r.lists[d := RemoveFirst(ListOf(r, d), url)])
  }

  function Stamped(cfg: Config, r: Redis, url: string, at: real): Redis {
    r.(crawlTimes := r.crawlTimes[cfg.domain(url) := at])
  }

  /** The release of a URL, undisturbed. */
  function Released(cfg: Config, r: Redis, url: string, at: real): Redis {
    Stamped(cfg, Unlisted(cfg, Pulled(r, url), url), url, at)
  }

  function DelaySet(cfg: Config, r: Redis, domain: string, delay: real): Redis {
    r.(delays := r.delays[domain := Clamp(cfg, delay)])
  }

  // ----- one scan -----

  /** The candidates: ZRANGE 0 99. */
  function Top(q: seq<Entry>): seq<Entry> {
    q[..Min(100, |q|)]
  }

  /** The scan from candidate `i`; candidate `i` is checked at the clock reading `clock(i)`. */
  function ScanFrom(cfg: Config, r: Redis, clock: nat -> real, i: nat, checked: set<string>): Option<nat>
    requires i <= |Top(r.queue)|
    decreases |Top(r.queue)| - i
  {
    if i == |Top(r.queue)| then None
    else
      var d := cfg.domain(Top(r.queue)[i].url);
      if d in checked then ScanFrom(cfg, r, clock, i + 1, checked)
      else if Ready(cfg, r, d, clock(i)) then Some(i)
      else ScanFrom(cfg, r, clock, i + 1, checked + {d})
  }

  function Scan(cfg: Config, r: Redis, clock: nat -> real): Option<nat> {
    ScanFrom(cfg, r, clock, 0, {})
  }

  class DistributedURLFrontier {
    const cfg: Config
    const bloom: Bloom.RedisBloomFilter
    var queue: seq<Entry>
    var lists: map<string, seq<string>>
    var crawlTimes: map<string, real>
    var delays: map<string, real>

    constructor (cfg: Config)
      ensures this.cfg == cfg && Valid() && fresh(bloom) && Snapshot() == Cleared
    {
      this.cfg := cfg;
      bloom := new Bloom.RedisBloomFilter(cfg.bloom);
      queue, lists, crawlTimes, delays := [], map[], map[], map[];
    }

    ghost predicate Valid() {
      bloom.cfg == cfg.bloom
    }

    function Snapshot(): Redis
      reads this, bloom
    {
      Redis(bloom.bits, queue, lists, crawlTimes, delays)
    }

    method AddUrl(url: string, priority: real, force: bool) returns (added: bool)
      requires Valid()
      modifies this, bloom
      ensures (Snapshot(), added) == Added(cfg, old(Snapshot()), url, priority, force)
    {
      hide ZAdd;
      var normalized := cfg.norm(url);
      var d := cfg.domain(normalized);
      if !force {
        var duplicate := bloom.Contains(normalized);
        if duplicate {
          return false;
        }
      }
      var _ := bloom.Add(normalized);
      queue := ZAdd(queue, normalized, -priority);
      lists := lists[d := (if d in lists then lists[d] else []) + [normalized]];
      return true;
    }

    /** One scan of `get_next_url`; `at` is the reading that `_update_crawl_time` stores. */
    method GetNextUrl(clock: nat -> real, at: real) returns (url: Option<string>)
      modifies this`queue, this`lists, this`crawlTimes
      ensures match Scan(cfg, old(Snapshot()), clock)
              case None => url == None && Snapshot() == old(Snapshot())
              case Some(i) =>
                && i < |Top(old(queue))|
                && url == Some(Top(old(queue))[i].url)
                && Snapshot() == Released(cfg, old(Snapshot()), Top(old(queue))[i].url, at)
    {
      hide ZRem, RemoveFirst;
      ghost var r := Snapshot();
      var urls := Top(queue);
      var checkedDomains: set<string> := {};
      for i := 0 to |urls|
        invariant Snapshot() == r && urls == Top(r.queue)
        invariant ScanFrom(cfg, r, clock, i, checkedDomains) == Scan(cfg, r, clock)
      {
        var d := cfg.domain(urls[i].url);
        if d !in checkedDomains {
          checkedDomains := checkedDomains + {d};
          if d !in crawlTimes || clock(i) - crawlTimes[d] >= (if d in delays then delays[d] else cfg.defaultDelay) {
            queue := ZRem(queue, urls[i].url);
            lists := lists[d := RemoveFirst(if d in lists then lists[d] else [], urls[i].url)];
            crawlTimes := crawlTimes[d := at];
            return Some(urls[i].url);
          }
        }
      }
      return None;
    }

    method SetDomainDelay(domain: string, delay: real)
      modifies this`delays
      ensures Snapshot() == DelaySet(cfg, old(Snapshot()), domain, delay)
    {
      delays := delays[domain := MaxReal(cfg.minDelay, MinReal(cfg.maxDelay, delay))];
    }

    method UpdateDomainDelayFromResponse(domain: string, responseTime: real)
      modifies this`delays
      ensures Snapshot() == DelaySet(cfg, old(Snapshot()), domain, AdaptiveDelay(cfg, responseTime))
    {
      var newDelay := AdaptiveDelay(cfg, responseTime);
      newDelay := MaxReal(cfg.minDelay, MinReal(cfg.maxDelay, newDelay));
      SetDomainDelay(domain, newDelay);
    }
  }

  // ----- the scan picks what it should -----

  ghost predicate Monotone(clock: nat -> real) {
    forall i: nat, j: nat :: i <= j ==> clock(i) <= clock(j)
  }

  predicate CandidateReady(cfg: Config, r: Redis, i: nat, t: real)
    requires i < |Top(r.queue)|
  {
    Ready(cfg, r, cfg.domain(Top(r.queue)[i].url), t)
  }

  lemma {:induction false} ScanFromPicks(cfg: Config, r: Redis, clock: nat -> real, i: nat, checked: set<string>)
    requires Monotone(clock) && i <= |Top(r.queue)|
    requires forall d :: d in checked ==> !Ready(cfg, r, d, clock(0))
    ensures match ScanFrom(cfg, r, clock, i, checked)
            case None => forall j :: i <= j < |Top(r.queue)| ==> !CandidateReady(cfg, r, j, clock(0))
            case Some(k) =>
              && i <= k < |Top(r.queue)| && CandidateReady(cfg, r, k, clock(k))
              && forall j :: i <= j < k ==> !CandidateReady(cfg, r, j, clock(0))
    decreases |Top(r.queue)| - i
  {
    hide Top;
    if i < |Top(r.queue)| {
      var d := cfg.domain(Top(r.queue)[i].url);
      if d in checked {
        ScanFromPicks(cfg, r, clock, i + 1, checked);
      } else if !Ready(cfg, r, d, clock(i)) {
        ScanFromPicks(cfg, r, clock, i + 1, checked + {d});
      }
    }
  }

  /**
   The memo of checked domains does not change the answer. The URL returned is ready when it
   is checked, and no candidate of higher rank among the top 100 was ready when the scan
   began; nothing is returned only if none was. With one clock reading this is "the first of
   the top 100 whose domain is ready".
   */
  lemma {:induction false} ScanPicksFirstReady(cfg: Config, r: Redis, clock: nat -> real)
    requires Monotone(clock)
    ensures match Scan(cfg, r, clock)
            case None => forall j :: 0 <= j < |Top(r.queue)| ==> !CandidateReady(cfg, r, j, clock(0))
            case Some(k) =>
              && k < |Top(r.queue)| && CandidateReady(cfg, r, k, clock(k))
              && forall j :: 0 <= j < k ==> !CandidateReady(cfg, r, j, clock(0))
  {
    ScanFromPicks(cfg, r, clock, 0, {});
  }

  // ----- the sorted set -----

  ghost predicate Ranked(q: seq<Entry>) {
    q != [] ==>
      && Ranked(q[1..])
      && q[0].url !in Urls(q[1..])
      && (forall e :: e in q ==> Before(q[0], e))
  }

  lemma {:induction false} BeforeTransitive(a: Entry, b: Entry, c: Entry)
    requires Before(a, b) && Before(b, c)
    ensures Before(a, c)
  {
    if a.score == b.score == c.score {
      LexTransitive(a.url, b.url, c.url);
    }
  }

  lemma {:induction false} BeforeTotal(a: Entry, b: Entry)
    ensures Before(a, b) || Before(b, a)
  {
    LexTotal(a.url, b.url);
  }

  lemma {:induction false} UrlsMember(q: seq<Entry>, i: nat)
    requires i < |q|
    ensures q[i].url in Urls(q)
  {
    if i > 0 {
      UrlsMember(q[1..], i - 1);
    }
  }

  lemma {:induction false} ZRemUrls(q: seq<Entry>, url: string)
    ensures Urls(ZRem(q, url)) == Urls(q) - {url}
    ensures forall e :: e in ZRem(q, url) ==> e in q
  {
    if q != [] {
      ZRemUrls(q[1..], url);
      if q[0].url != url {
        assert ZRem(q, url)[1..] == ZRem(q[1..], url);
      }
    }
  }

  lemma {:induction false} ZRemRanked(q: seq<Entry>, url: string)
    requires Ranked(q)
    ensures Ranked(ZRem(q, url))
  {
    hide Before;
    if q != [] {
      ZRemRanked(q[1..], url);
      ZRemUrls(q[1..], url);
      if q[0].url != url {
        var z := ZRem(q, url);
        assert z[1..] == ZRem(q[1..], url);
        forall e | e in z ensures Before(z[0], e) {
          assert e in q;
        }
      }
    }
  }

  lemma {:induction false} ZInsertUrls(q: seq<Entry>, e: Entry)
    ensures Urls(ZInsert(q, e)) == Urls(q) + {e.url}
    ensures forall x :: x in ZInsert(q, e) ==> x == e || x in q
  {
    hide Before;
    var z := ZInsert(q, e);
    if q == [] {
      assert z[1..] == [];
    } else if Before(e, q[0]) {
      assert z[1..] == q;
    } else {
      ZInsertUrls(q[1..], e);
      assert z[1..] == ZInsert(q[1..], e);
    }
  }

  lemma {:induction false} ZInsertRanked(q: seq<Entry>, e: Entry)
    requires Ranked(q) && e.url !in Urls(q)
    ensures Ranked(ZInsert(q, e))
  {
    hide Before;
    var z := ZInsert(q, e);
    BeforeTotal(e, e);
    if q == [] {
      assert z[1..] == [];
    } else if Before(e, q[0]) {
      assert z[1..] == q;
      forall x | x in z ensures Before(e, x) {
        if x != e {
          BeforeTransitive(e, q[0], x);
        }
      }
    } else {
      ZInsertRanked(q[1..], e);
      ZInsertUrls(q[1..], e);
      BeforeTotal(e, q[0]);
      assert z[1..] == ZInsert(q[1..], e);
      forall x | x in z ensures Before(q[0], x) {
        assert x == q[0] || x in z[1..];
      }
    }
  }

  /** The sorted set stays sorted, with every member once, under ZADD and ZREM. */
  lemma {:induction false} QueueStaysRanked(q: seq<Entry>, url: string, score: real)
    requires Ranked(q)
    ensures Ranked(ZAdd(q, url, score)) && Urls(ZAdd(q, url, score)) == Urls(q) + {url}
    ensures Ranked(ZRem(q, url)) && Urls(ZRem(q, url)) == Urls(q) - {url}
  {
    hide Ranked, ZInsert, ZRem, Urls;
    ZRemRanked(q, url);
    ZRemUrls(q, url);
    ZInsertRanked(ZRem(q, url), Entry(url, score));
    ZInsertUrls(ZRem(q, url), Entry(url, score));
  }

  /** What rank means: small scores first and, among equal scores, the URL that precedes; every URL once. */
  lemma {:induction false} RankedOrder(q: seq<Entry>, i: nat, j: nat)
    requires Ranked(q) && i < j < |q|
    ensures q[i].score <= q[j].score && (q[i].score == q[j].score ==> Precedes(q[i].url, q[j].url))
    ensures q[i].url != q[j].url
  {
    if i == 0 {
      assert q[j] in q;
      assert q[1..][j - 1] == q[j];
      UrlsMember(q[1..], j - 1);
      LexIsPrecedes(q[0].url, q[j].url);
    } else {
      RankedOrder(q[1..], i - 1, j - 1);
    }
  }

  lemma {:induction false} ZRemHolds(q: seq<Entry>, url: string, e: Entry)
    ensures e in ZRem(q, url) <==> e in q && e.url != url
  {
    if q != [] {
      ZRemHolds(q[1..], url, e);
      assert e in q <==> e == q[0] || e in q[1..];
    }
  }

  lemma {:induction false} ZInsertHolds(q: seq<Entry>, x: Entry, e: Entry)
    ensures e in ZInsert(q, x) <==> e == x || e in q
  {
    hide Before;
    if q != [] {
      ZInsertHolds(q[1..], x, e);
      assert e in q <==> e == q[0] || e in q[1..];
    }
  }

  /** ZADD leaves the URL with exactly the given score, and every other entry as it was. */
  lemma {:induction false} ZAddHolds(q: seq<Entry>, url: string, score: real, e: Entry)
    ensures e in ZAdd(q, url, score) <==> e == Entry(url, score) || (e in q && e.url != url)
  {
    hide ZRem, ZInsert;
    ZRemHolds(q, url, e);
    ZInsertHolds(ZRem(q, url), Entry(url, score), e);
  }

  // ----- the domain lists mirror the queue -----

  /** Each domain's list holds exactly the queued URLs of that domain, each once. */
  ghost predicate Mirrored(cfg: Config, r: Redis) {
    forall d, u :: MirroredAt(cfg, r, d, u)
  }

  lemma {:induction false} RemoveFirstBag(s: seq<string>, url: string)
    ensures multiset(RemoveFirst(s, url)) == multiset(s) - multiset{url}
  {
    if s != [] {
      assert s == [s[0]] + s[1..];
      if s[0] != url {
        RemoveFirstBag(s[1..], url);
      }
    }
  }

  /** What the list of a domain must say about a URL. */
  ghost predicate MirroredAt(cfg: Config, r: Redis, d: string, u: string) {
    multiset(ListOf(r, d))[u] == if u in Urls(r.queue) && cfg.domain(u) == d then 1 else 0
  }

  /** Adding a URL that is not queued keeps the mirror. */
  lemma {:induction false} AddMirrored(cfg: Config, r: Redis, n: string, r': Redis)
    requires Mirrored(cfg, r) && n !in Urls(r.queue)
    requires Urls(r'.queue) == Urls(r.queue) + {n}
    requires var d := cfg.domain(n); r'.lists == r.lists[d := ListOf(r, d) + [n]]
    ensures Mirrored(cfg, r')
  {
    forall d, u ensures MirroredAt(cfg, r', d, u) {
      assert MirroredAt(cfg, r, d, u);
      hide Mirrored, Urls;
      if d == cfg.domain(n) {
        assert multiset(ListOf(r', d)) == multiset(ListOf(r, d)) + multiset{n};
      } else {
        assert ListOf(r', d) == ListOf(r, d);
      }
    }
  }

  /**
   An add that goes through keeps the mirror exactly if the URL is not queued yet. A forced
   add of a queued URL, or two adds whose checks both precede their writes, list it twice.
   */
  lemma {:induction false} AddKeepsMirrorIff(cfg: Config, r: Redis, url: string, priority: real, force: bool)
    requires Ranked(r.queue) && Mirrored(cfg, r) && Added(cfg, r, url, priority, force).1
    ensures Mirrored(cfg, Added(cfg, r, url, priority, force).0) <==> cfg.norm(url) !in Urls(r.queue)
  {
    hide Ranked, Urls, ZAdd;
    var n, r' := cfg.norm(url), Added(cfg, r, url, priority, force).0;
    var d := cfg.domain(n);
    QueueStaysRanked(r.queue, n, -priority);
    if n !in Urls(r.queue) {
      AddMirrored(cfg, r, n, r');
    } else {
      assert multiset(ListOf(r', d)) == multiset(ListOf(r, d)) + multiset{n};
      assert MirroredAt(cfg, r, d, n) && !MirroredAt(cfg, r', d, n);
    }
  }

  lemma {:induction false} ReleaseMirrored(cfg: Config, r: Redis, url: string, at: real)
    requires Mirrored(cfg, r) && url in Urls(r.queue)
    ensures Mirrored(cfg, Released(cfg, r, url, at))
  {
    hide Urls, ZRem, RemoveFirst;
    var r' := Released(cfg, r, url, at);
    ZRemUrls(r.queue, url);
    forall d, u ensures MirroredAt(cfg, r', d, u) {
      assert MirroredAt(cfg, r, d, u);
      hide Mirrored;
      if d == cfg.domain(url) {
        RemoveFirstBag(ListOf(r, d), url);
      } else {
        assert ListOf(r', d) == ListOf(r, d);
      }
    }
  }
}
