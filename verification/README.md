# A verified model of the crawler's coordination logic

This project models the parts of the document processor that coordinate work: the crawl
frontier and scheduler, the circuit breaker, the two rate limiters, the staged pipeline, the
research event stream, keyed writes under retry, refresh tokens and the login lockout, and
four sequential algorithms (similarity hashing, two text chunkers, the dead-letter retry).

Objects whose methods change fields are classes here, and each method is proved against a
pure step function on a snapshot of those fields. Runs are sequences of such steps, and the
main results are about every run: what every step keeps, conservation laws, bounds with the
runs that reach them, and, where the code does not do what its purpose suggests, the exact
condition under which it does.

How the code's surroundings are represented:

- An `asyncio` body under a lock, or between two awaits, is one step, and so is a single
  Redis, Mongo or Postgres operation. Adds, the fetch and any number of workers interleave
  at that grain; one scheduler fetches.
- Clock readings are arguments; clocks do not run backwards. Times and rates are reals.
- SHA-256, MD5, tokenising, `str.strip`'s notion of whitespace, pipeline and URL
  handlers and the dead-letter processor are arbitrary functions or arbitrary outcomes.
- `str.lower` is modelled on ASCII. Unique ids (UUIDs, serial keys) are unique.

| file | models |
|---|---|
| `SlidingWindow.dfy`, `TokenBucket.dfy` | the two rate limiters |
| `CircuitBreaker.dfy` | the circuit breaker with overlapping calls |
| `UrlNormal.dfy`, `UrlStrings.dfy` | URL normalisation, on parsed parts and on strings |
| `Bloom.dfy`, `Frontier.dfy`, `FrontierRuns.dfy`, `Scheduler.dfy` | the crawl frontier and its scheduler, operation by operation; what a frontier returns first |
| `Crawl.dfy`, `CrawlDomains.dfy`, `CrawlQueue.dfy` | the two together, interleaved: where URLs are, what domains and delays come to, how the queue is ordered |
| `CrawlSteps.dfy`, `CrawlRaces.dfy` | that the steps are those operations, and interleavings that break stronger laws |
| `Pipeline.dfy` | the staged crawl pipeline |
| `EventStream.dfy` | the research event stream and its duplicate filter |
| `KeyedWrites.dfy` | idempotent upserts under retry |
| `RefreshTokens.dfy`, `Lockout.dfy` | token rotation and the login lock |
| `Simhash.dfy` | near-duplicate detection |
| `Chunking.dfy`, `SentenceChunker.dfy`, `SentenceTexts.dfy` | the plain chunker, the sentence chunker and texts that show its laws |
| `DeadLetter.dfy` | the dead-letter queue and its retry loop |
| `Common.dfy` | `Option`, minimum, maximum, copies of an item and sums over sequences |

## Where the code departs from its purpose

- The rate limiters are documented as keeping an average rate and as precise. Both keep the
  clock reading taken before their sleep, so the sliding window admits up to
  `max_requests + 1` calls in a window, in some runs at one instant, and the token bucket up
  to twice its rate. Both bounds are proved and reached, and `WindowKeptIff` and
  `RateKeptIff` say exactly when the documented ones are kept: while nobody has slept, the
  next call must not have to either, which a caller can check before it.
- `retry_dlq_messages` removes at `i - failure_count`. It leaves the right entries exactly
  when every success finds as many failures as successes before it (`WrittenIffBalanced`).
- `RAGEngine._chunk_text` can return to the same `start` for ever (`NeverLeavesStart`). A
  sentence that ends within the first `overlap` characters makes `start` negative, and the
  slice then wraps around. The loop ends exactly if, from the last time it comes back from
  below zero, every round moves forward (`HaltsIffAdvances`), and text is lost exactly if the
  rounds before that leave some out (`CoversIff`, `DropsText`).
- A call that ends in an exception the circuit breaker does not expect, or is cancelled, is
  never counted. Such calls can wedge any breaker in HALF_OPEN until `reset`
  (`WedgeReachable`, `WedgeIsAbsorbing`).
- A success of a call admitted before the breaker opened counts towards closing it
  (`ClosingTakesTrialsIff`).
- Normalising twice is not always normalising once: not for a host that carries its default
  port twice, and not if stripping trailing slashes leaves a `;` in the last segment, which
  `urlparse` then splits off (`NormalizeIdempotentIff`). Such a URL is replaced by another one
  when it is re-queued, so that what passed the duplicate check is nowhere and what never did
  is crawled (`ConservedIff`, `Escapes`, `StandardNeverRenamedIff`).
- `add_url` and a release are several Redis commands. Two adds of one URL that overlap can
  both be accepted, and its handler then runs twice (`OnePlaceIff`, `HandledTwice`); a release
  between ZADD and RPUSH leaves a stale list entry (`ListsMirrorQueueIff`, `StaleEntry`);
  two workers of one domain can leave scheduler and frontier with different delays
  (`DelaysAgreeIff`, `CopiesPart`); and a delay raised between a fetch's reading and its
  release is not kept by that release (`InForceKeptIff`, `RaisedTooLate`).
- The re-queue of a URL of a blocked domain is refused by the Bloom filter, so the URL is
  dropped (`DroppedIffBlocked`, `OfferRefused`).
- The documentation of `rotate_refresh_token` says a replay revokes the token's family; the
  code revokes all of the user's tokens. A rotation between its two transactions survives
  that, and so does one that has read its row and not yet written it (`ReplayLocksOutIff`,
  `ReplayMissesRead`).
- The first transaction of a rotation reads the row without locking it. `TokenForest` takes
  the transaction as one step; `TokenForestIff` says exactly which writes keep its law if it
  is not, and `RaceForks` is a run that breaks it.
- A login attempt computes its failure count from an earlier read, so attempts that overlap
  are counted once (`CounterExactIff`, `OverlapCountsOnce`). `ThrottledIff` says exactly when
  the lock does its work; then the counter survives it, so every lockout period admits one
  more guess, and only one (`FailureBound`).

## Model

| member | source | states |
|---|---|---|
| `SlidingWindow.SlidingWindowRateLimiter.Acquire` | document_processor/reliability/rate_limiter.py:112-139 | The call refines `Acquired`: which times stay in the deque, that the time recorded is the one read before the sleep, when the caller is let through, the IndexError of an empty deque, and a cancelled sleep, which records nothing. |
| `SlidingWindow.SlidingWindowRateLimiter.PopExpired` | document_processor/reliability/rate_limiter.py:118-120 | The eviction loop leaves the deque exactly from the first time that is not before the cutoff. |
| `SlidingWindow.GrantsAreSpaced` | document_processor/reliability/rate_limiter.py:112-139 | In every run of lock-serialised calls whose sleeps end strictly after their deadline or are cancelled, the deque holds at most `max_requests` times, and any `max_requests + 2` consecutive grants span more than the window. |
| `SlidingWindow.WindowBound` | document_processor/reliability/rate_limiter.py:112-139 | Every window, wherever it starts, holds at most `max_requests + 1` grants. |
| `SlidingWindow.WindowBoundIsReached` | document_processor/reliability/rate_limiter.py:112-139 | For every positive limit and window, a legal run with `max_requests + 1` grants at one instant. |
| `SlidingWindow.WindowKeptIff` | document_processor/reliability/rate_limiter.py:112-139 | The documented bound, at most `max_requests` grants in every window: while nobody has been let through after a sleep, a call leaves it kept over every continuation of the same kind exactly if that call is not let through after a sleep either, which its caller can tell beforehand from the usage. |
| `SlidingWindow.QuietKeepsWindows` | document_processor/reliability/rate_limiter.py:112-139 | A run in which nobody is let through after a sleep keeps the documented bound. |
| `SlidingWindow.WaitBreaksWindows` | document_processor/reliability/rate_limiter.py:122-139 | After any run that ends with a call let through after a sleep, a full burst in which nobody waits breaks the documented bound. |
| `SlidingWindow.NoCapacityNoGrants` | document_processor/reliability/rate_limiter.py:122-124 | A limit that is not positive never lets a call through. |
| `SlidingWindow.WaitEvictsIffStrictlyLate` | document_processor/reliability/rate_limiter.py:122-139 | A waiting call keeps the deque within its limit exactly if the sleep ends strictly after the deadline. |
| `TokenBucket.TokenBucketRateLimiter.Acquire` | document_processor/reliability/rate_limiter.py:44-73 | The call refines `Acquired`: refill up to `rate`, spend or sleep for the shortfall, keep the time read before the sleep; a cancelled sleep and the two ZeroDivisionErrors leave the state they leave in the code. |
| `TokenBucket.Conservation` | document_processor/reliability/rate_limiter.py:44-73 | For positive rate and period and amounts that are not negative: in every run, granted plus held plus overflowed tokens equal the initial bucket plus what elapsed and waited time earn, and the token count stays between 0 and `rate`. |
| `TokenBucket.GrantBound` | document_processor/reliability/rate_limiter.py:44-80 | Granted plus available tokens are at most `rate` plus what elapsed and slept time earn, hence at most `rate` plus twice the nominal amount. |
| `TokenBucket.GrantBoundIsReached` | document_processor/reliability/rate_limiter.py:44-73 | For every rate and period, back-to-back runs of any length meet the factor two exactly. |
| `TokenBucket.NominalRateIff` | document_processor/reliability/rate_limiter.py:13-73 | The documented average rate: over every stretch of calls, what is granted, at the times callers are let through, is at most `rate` plus what the time between its first and last grant earns. It is kept exactly if a bucket of capacity `rate` that is refilled up to each grant and charged for it is never overdrawn. |
| `TokenBucket.ShadowIsLeast` | document_processor/reliability/rate_limiter.py:44-73 | That bucket holds the smallest allowance left of all stretches that end now. |
| `TokenBucket.NoWaitKeepsRate` | document_processor/reliability/rate_limiter.py:44-80 | A run in which nobody is let through after a sleep keeps the average rate. |
| `TokenBucket.RateKeptIff` | document_processor/reliability/rate_limiter.py:13-80 | The documented average rate: while nobody has been let through after a sleep, a call leaves it kept over every continuation of the same kind exactly if that call is not let through after a sleep either, which its caller can tell beforehand from `get_available_tokens`. |
| `TokenBucket.SleepBreaksRate` | document_processor/reliability/rate_limiter.py:44-80 | After any such run that ends with a call let through after a sleep, one request for what is then available is met at once and breaks the rate. |
| `TokenBucket.QuietShadow` | document_processor/reliability/rate_limiter.py:44-80 | While nobody sleeps, the bucket of `NominalRateIff` is what `get_available_tokens` reports. |
| `TokenBucket.RangeKeptIff` | document_processor/reliability/rate_limiter.py:44-73 | A full bucket stays within `rate` exactly if the amount asked for is not negative. |
| `CircuitBreaker.CircuitBreaker.TryEnter` | document_processor/reliability/circuit_breaker.py:73-98 | A call is admitted when closed, when the recovery timeout has passed, or while the half-open budget lasts; a rejected one changes nothing. |
| `CircuitBreaker.CircuitBreaker.OnSuccess` | document_processor/reliability/circuit_breaker.py:114-128 | A success ends the run of failures and closes a half-open breaker once the run of successes is long enough. |
| `CircuitBreaker.CircuitBreaker.OnFailure` | document_processor/reliability/circuit_breaker.py:130-153 | A failure ends the run of successes, is timed, and opens the breaker at the threshold, or at once when half-open. |
| `CircuitBreaker.CircuitBreaker.Reset` | document_processor/reliability/circuit_breaker.py:169-175 | Everything but the time of the last failure is as in a fresh breaker. |
| `CircuitBreaker.Invariants` | document_processor/reliability/circuit_breaker.py:73-175 | What every step of every run keeps: counters against history, failure times against the clock, and calls of the episode against the budget. |
| `CircuitBreaker.CountersRefineHistory` | document_processor/reliability/circuit_breaker.py:114-153 | In every run of overlapping calls the two counters are the trailing runs of failures and successes among the completions since the last reset, and a closed breaker whose last completion failed is below its threshold. |
| `CircuitBreaker.StateByEvents` | document_processor/reliability/circuit_breaker.py:73-175 | In every run, told by the events alone: a reset closes; a failure opens a half-open breaker, and any breaker when it completes `failure_threshold` failures in a row since the last reset; a success closes a half-open one once `half_open_max_calls` in a row are behind it; a call lets an open one half open if the last failure is more than the timeout ago; nothing else changes the state. |
| `CircuitBreaker.AdmissionByEvents` | document_processor/reliability/circuit_breaker.py:73-98 | In every run, exactly which calls are let in: all while closed, the first after the timeout while open, and in a half-open episode while at most `half_open_max_calls` of its calls have been let in. |
| `CircuitBreaker.ResetCloses` | document_processor/reliability/circuit_breaker.py:169-175 | After a reset, over every continuation without another one, the breaker is closed and lets every call in until `failure_threshold` completions in a row since then have failed, and then it is open. |
| `CircuitBreaker.ResetUnwedges` | document_processor/reliability/circuit_breaker.py:169-175 | In particular the call after the reset of a wedged breaker is let in. |
| `CircuitBreaker.RecoveryWaits` | document_processor/reliability/circuit_breaker.py:73-89 | OPEN has a failure time, and a call admitted out of OPEN comes more than the recovery timeout after every failure so far. |
| `CircuitBreaker.EpisodeBound` | document_processor/reliability/circuit_breaker.py:75-98 | No half-open episode admits more than `half_open_max_calls + 1` calls. |
| `CircuitBreaker.NeverWedged` | document_processor/reliability/circuit_breaker.py:73-128 | When the half-open budget is used up, at least two trial calls of that episode (one for a budget that is not positive) are running or ended uncounted. |
| `CircuitBreaker.IdleHalfOpenAdmits` | document_processor/reliability/circuit_breaker.py:91-98 | A half-open breaker with no trial call running and none uncounted admits the next call. |
| `CircuitBreaker.ClosingTakesTrialsIff` | document_processor/reliability/circuit_breaker.py:114-128 | Closing a half-open breaker takes `half_open_max_calls` successful trial calls exactly if no success of a call admitted earlier was counted towards it (or one is enough, and a trial call closes). |
| `CircuitBreaker.StaleSuccessCloses` | document_processor/reliability/circuit_breaker.py:114-128 | A run in which a call admitted before the breaker opened closes it while the only trial call is running. |
| `CircuitBreaker.WedgeIsAbsorbing` | document_processor/reliability/circuit_breaker.py:91-112 | A half-open breaker with its budget used up and no call running stays so, and admits nothing, over every continuation without a `reset`. |
| `CircuitBreaker.WedgeReachable` | document_processor/reliability/circuit_breaker.py:100-112 | For every configuration, a run of trial calls that end uncounted gets the breaker there, in an episode that admits `half_open_max_calls + 1` calls, so the bound of `EpisodeBound` is reached. |
| `UrlNormal.IdempotentIff` | document_processor/crawling/url_frontier.py:273-301 | On parsed URLs, normalising twice is normalising once exactly if the host does not end in its scheme's default port twice. |
| `UrlNormal.SameNormalFormIff` | document_processor/crawling/url_frontier.py:273-301 | Two URLs have one normal form exactly if scheme, host, path up to trailing slashes and the multiset of parameters agree. |
| `UrlNormal.NormalQueryIff` | document_processor/crawling/url_frontier.py:290-294 | Two queries normalise equally exactly if they have the same parameters. |
| `UrlNormal.NormalPathIff` | document_processor/crawling/url_frontier.py:288 | Two paths normalise equally exactly if they agree up to trailing slashes; once is enough. |
| `UrlNormal.OrderedUnique` | document_processor/crawling/url_frontier.py:293 | A multiset of strings has one sorted listing. |
| `UrlNormal.SortOrdered` | document_processor/crawling/url_frontier.py:293 | Sorting gives a lexicographically ordered permutation. |
| `UrlNormal.LexIsPrecedes` | document_processor/crawling/url_frontier.py:293 | The order is that of the first difference: a prefix comes first, otherwise the smaller character does. |
| `UrlNormal.LowerAlphabet` | document_processor/crawling/url_frontier.py:277-279 | Lower-casing turns each of the 26 capitals into the small letter at its place, and changes nothing else. |
| `UrlNormal.DefaultPortGoes` | document_processor/crawling/url_frontier.py:281-285 | The default port of `http` and of `https` goes, whatever stands before it, and nothing else does. |
| `UrlNormal.JoinSplit` | document_processor/crawling/url_frontier.py:293-294 | Joining the split query gives the query back. |
| `UrlNormal.SplitJoin` | document_processor/crawling/url_frontier.py:293-294 | Splitting joined parameters that contain no `&` gives them back. |
| `UrlNormal.RenderInjective` | document_processor/crawling/url_frontier.py:296-301 | Different well-formed URLs with a path render differently. |
| `UrlNormal.SameStringIff` | document_processor/crawling/url_frontier.py:296-301 | For well-formed URLs, the rendered strings of two normal forms are equal exactly if the normal forms are. |
| `UrlStrings.NormalizeIdempotentIff` | document_processor/crawling/url_frontier.py:273-301 | For every string, with what `urlparse` removes and where it cuts: normalising it twice is normalising it once exactly if it has a scheme, its host does not end in the default port twice, and the path has no `;` in its last segment once its trailing slashes are gone; with the corresponding condition if the path does not start with a slash. |
| `UrlStrings.ReadText` | document_processor/crawling/url_frontier.py:273-301 | How `urlparse` takes a rendered URL apart again. |
| `UrlStrings.SchemeIs` | document_processor/crawling/url_frontier.py:275-278 | What `urlparse` takes for a scheme: a letter, then letters, digits and the three signs. |
| `UrlStrings.DomainOfNormal` | document_processor/crawling/url_frontier.py:268-327 | The domain under which `add_url` files a normalised URL with a scheme and a rooted path is the host of the URL it was given. |
| `UrlStrings.SchemelessNever` | document_processor/crawling/url_frontier.py:273-301 | A string without a scheme never has a stable normal form. |
| `UrlStrings.SameNormalStringIff` | document_processor/crawling/url_frontier.py:273-301 | Any two strings normalise to the same string exactly if they have the same scheme, the same host followed by the same path up to trailing slashes, and the same multiset of parameters. |
| `UrlStrings.RootedSameNormalStringIff` | document_processor/crawling/url_frontier.py:273-301 | If both paths are empty or start with a slash, exactly if host and path agree one by one. |
| `UrlStrings.DoublePortMoves` | document_processor/crawling/url_frontier.py:280-285 | `http://h:80:80/` changes when it is normalised twice. |
| `UrlStrings.TrailingSlashMoves` | document_processor/crawling/url_frontier.py:287-288 | `http://h/a;b/` changes when it is normalised twice. |
| `Bloom.RedisBloomFilter.GetHashPositions` | document_processor/crawling/url_frontier.py:94-107 | As many positions as there are hash functions, and exactly those of double hashing. |
| `Bloom.ProbesStep` | document_processor/crawling/url_frontier.py:94-107 | The probes of an item start at its first digest and go on by its second, modulo the size, and two of them fall on one bit exactly if the size divides that many steps. |
| `Bloom.RedisBloomFilter.Add` | document_processor/crawling/url_frontier.py:109-135 | Sets exactly the item's bits and reports whether all were set. |
| `Bloom.RedisBloomFilter.Contains` | document_processor/crawling/url_frontier.py:137-152 | Reports whether all bits of the item are set. |
| `Bloom.NoFalseNegatives` | document_processor/crawling/url_frontier.py:94-152 | Added items are always reported, and an item is reported exactly if each of its bits comes from an added item; `Crawl` derives from it that queued URLs are refused. |
| `Frontier.DistributedURLFrontier.AddUrl` | document_processor/crawling/url_frontier.py:325-364 | Undisturbed, an add is refused exactly if it is not forced and the filter reports the normalised URL; otherwise filter, ranked queue and domain list all take the normalised URL. |
| `Frontier.DistributedURLFrontier.GetNextUrl` | document_processor/crawling/url_frontier.py:414-447 | Undisturbed, one scan returns and removes the candidate `Scan` picks and stamps its domain, or changes nothing. |
| `Frontier.DistributedURLFrontier.SetDomainDelay` | document_processor/crawling/url_frontier.py:486-496 | Only the domain's delay changes, to the given one clamped between minimum and maximum. |
| `Frontier.DistributedURLFrontier.UpdateDomainDelayFromResponse` | document_processor/crawling/url_frontier.py:498-519 | Only the domain's delay changes, to the clamped multiple of the response time, although it is clamped twice on the way. |
| `Frontier.ScanPicksFirstReady` | document_processor/crawling/url_frontier.py:406-467 | The scan returns the first of the top 100 whose domain is ready, whatever the memo and however the clock advances during it. |
| `Frontier.QueueStaysRanked` | document_processor/crawling/url_frontier.py:340-345 | The priority queue stays in rank order with every URL once, and ZADD and ZREM add and remove just that URL. |
| `Frontier.RankedOrder` | document_processor/crawling/url_frontier.py:340-345 | Rank order is the smaller score first and, among equal scores, the URL that precedes; no URL twice. |
| `Frontier.ZAddHolds` | document_processor/crawling/url_frontier.py:342-345 | After ZADD the queue holds exactly the URL with the given score and every other entry as it was. |
| `FrontierRuns.HighestPriorityFirst` | document_processor/crawling/url_frontier.py:315-447 | After any adds, fetches and changes of delay: the next fetch returns a URL whose domain is ready, and no queued URL whose domain was ready when the scan began was last added with a higher priority; among equal priorities the one that precedes is returned. It is one of the first 100, and nothing is returned only if none of these was ready. |
| `FrontierRuns.RunPriced` | document_processor/crawling/url_frontier.py:325-447 | After any such operations the queue holds exactly the URLs added and not yet fetched, each under the priority it was added with last. |
| `Frontier.AddKeepsMirrorIff` | document_processor/crawling/url_frontier.py:340-349 | An accepted add keeps the domain lists in step with the queue exactly if the URL is not already queued. |
| `Frontier.ReleaseMirrored` | document_processor/crawling/url_frontier.py:434-440 | A release keeps the domain lists in step with the queue. |
| `Scheduler.CrawlScheduler.WorkerBegin` | document_processor/crawling/scheduler.py:272-298 | A worker up to its first await: the domain gets its entry, an expired block is lifted, and the handler is called unless the domain is blocked. |
| `Scheduler.CrawlScheduler.WorkerJudge` | document_processor/crawling/scheduler.py:303-378 | A worker from the end of its handler to the next await: what the success, 429, 5xx, other-status, timeout and exception branches do to the domain and the counters, and the delay they ask to store. |
| `Scheduler.CrawlScheduler.WorkerNote` | document_processor/crawling/scheduler.py:335-336 | Once a delay is acknowledged, only the domain's own copy of it changes. |
| `Scheduler.CrawlScheduler.WorkerFinish` | document_processor/crawling/scheduler.py:303-400 | All that a worker does after its handler, undisturbed, to scheduler and frontier. |
| `Crawl.Invariants` | document_processor/crawling/scheduler.py:236-400 | What every step of every interleaving keeps, whatever URLs are added: the tally of every URL, the filter against the items marked, the queue in rank order, the candidates of a scan queued. |
| `Crawl.CrawlConservation` | document_processor/crawling/scheduler.py:236-378 | In every interleaving of the single commands: the places of a URL (being added, offered, queued, being fetched, with a worker, being handled, backing off, finished, dropped), the times it was queued while queued already and the re-queues that put another URL in its place add up to the times it passed the duplicate check and the re-queues that put it in the place of another; completed plus failed counts the finished ones. |
| `Crawl.ConservedIff` | document_processor/crawling/scheduler.py:286-341 | The accepted adds of a URL are conserved throughout a run exactly if no re-queue renamed it, or another URL into it. |
| `Crawl.StableNeverRenamed` | document_processor/crawling/scheduler.py:286-341 | If the added URLs are stable under normalisation, nothing is ever renamed. |
| `CrawlRaces.NeverRenamedIff` | document_processor/crawling/scheduler.py:338-339 | For a URL with a bit in the filter, no run that adds only this URL renames anything exactly if normalising it twice is normalising it once. |
| `CrawlRaces.StandardNeverRenamedIff` | document_processor/crawling/scheduler.py:338-339 | With the normalisation of the code, exactly if the parsed URL is `Stable`. |
| `CrawlRaces.Escapes` | document_processor/crawling/scheduler.py:296-341 | For every URL with a bit in the filter whose normal form is not stable, a run that adds nothing else, after which its normal form, accepted once, is in no place, and a URL that was never accepted is in one. |
| `CrawlRaces.TrailingSlashEscapes` | document_processor/crawling/scheduler.py:338-339 | `http://h/a;b/` is such a URL. |
| `Crawl.OnePlaceIff` | document_processor/crawling/url_frontier.py:329-338 | A URL that no re-queue put in the place of another is never in two places exactly if none of its duplicate checks passes while another add of it is between its check and its marks. |
| `Crawl.DroppedIffBlocked` | document_processor/crawling/scheduler.py:286-291 | Only the offer of a blocked domain's worker drops a URL, and a worker makes that offer, with the low priority, exactly if its domain is blocked. |
| `Crawl.OfferRefused` | document_processor/crawling/scheduler.py:286-291 | In every interleaving that offer is refused and changes nothing in the frontier, unless a re-queue put the URL in the place of another. |
| `CrawlDomains.BlockedIff` | document_processor/crawling/scheduler.py:272-356 | In every interleaving: a worker that begins does not call its handler and offers its URL back with priority -100 exactly if some 5xx of its domain less than 300 seconds ago was at least the fifth 429, 5xx or timeout since the last success; otherwise no block is left. |
| `CrawlDomains.CountersFollowOutcomes` | document_processor/crawling/scheduler.py:272-378 | In every interleaving a domain's counters are the errors since the last success, the answers, the successes and the rest, counted from what its handlers came to; the scheduler's are the workers begun, the successes, and the failures other than a 429. |
| `CrawlDomains.StoredDelaysFollowOutcomes` | document_processor/crawling/scheduler.py:303-400 | In every interleaving a stored delay goes back to an outcome of its domain: a success, and it is the clamped multiple of the response time, or a 429, and it is the clamped double of the delay of that time, at most the maximum. |
| `CrawlDomains.ThrottledIsRequeued` | document_processor/crawling/scheduler.py:324-341 | A worker that notes a delay queues its URL again, with priority -50 and past the duplicate check, exactly if that delay goes back to a 429. |
| `Crawl.HandlerRuns` | document_processor/crawling/scheduler.py:296-341 | In every interleaving, URL by URL, the handler runs as often as it answered 429, and once more for each time the URL is running or finished. It runs more than once beyond its 429s exactly if the URL is in two of these places, which takes overlapping adds of it or a re-queue of another URL as this one; and the accepted and renamed adds bound it. |
| `CrawlRaces.HandledTwice` | document_processor/crawling/url_frontier.py:329-345 | For every normalised URL with a bit in the filter, a run in which two adds overlap and the handler runs twice without a 429. |
| `Crawl.ListsMirrorQueueIff` | document_processor/crawling/url_frontier.py:340-440 | In every interleaving, with no add between ZADD and RPUSH and no release between ZREM and LREM: the domain lists hold exactly the queued URLs of their domain, each once, exactly if no URL was ever queued while queued already and none released before it was listed; and how often a URL stands in its list otherwise. |
| `CrawlQueue.QueueInOrder` | document_processor/crawling/url_frontier.py:340-345 | In every interleaving the queue has the smaller score first and, among equal scores, the URL that precedes. |
| `CrawlQueue.ScoresWereAsked` | document_processor/crawling/url_frontier.py:340-345 | In every interleaving a queued URL has the score, minus the priority, of an add with this normal form, or that of one of the two re-queues. |
| `Crawl.MergedOverlapped` | document_processor/crawling/url_frontier.py:329-345 | A URL is queued while queued already only if it passed the duplicate check twice, which takes overlapping adds, or a re-queue put it in the place of another. |
| `Crawl.MissedUnlisted` | document_processor/crawling/url_frontier.py:434-440 | A release finds its URL unlisted only if an add of it is between its ZADD and its RPUSH. |
| `CrawlRaces.StaleEntry` | document_processor/crawling/url_frontier.py:342-440 | For every normalised URL with a bit in the filter, a run without overlapping adds after which it stands in the list of its domain although nothing is queued or under way. |
| `Crawl.ReleasesArePolite` | document_processor/crawling/url_frontier.py:433-484 | In every interleaving two releases for one domain are at least the delay apart that the fetch had read for the later one, never less than the smaller of minimum and default. |
| `Crawl.InForceKeptIff` | document_processor/crawling/url_frontier.py:433-484 | The delay in force at a release is kept as well, whenever the release is stamped, exactly if the domain has been left alone for it by the time its URL is off the queue and the list; and so it is if no worker has raised it since it was read. |
| `CrawlRaces.RaisedTooLate` | document_processor/crawling/url_frontier.py:433-496 | Two URLs of one domain that the filter tells apart, and a worker that raises the delay above the default between reading and release: a run with two releases closer than the delay in force. |
| `Crawl.DelaysAgreeIff` | document_processor/crawling/scheduler.py:330-400 | In every interleaving, if no worker has stored a delay of the domain that it has yet to note: scheduler and frontier agree on the delay exactly if the one stored last, clamped, is the one noted last. If the minimum delay is at most the maximum and at most two seconds, that is exactly if the last worker to note did not come after one that had stored later, or both wrote the same. |
| `CrawlRaces.CopiesPart` | document_processor/crawling/scheduler.py:335-400 | Two workers of one domain store their delays in one order and note them in the other, and the copies stay different. |
| `Scheduler.FirstBackoffAgreesIff` | document_processor/crawling/scheduler.py:330-336 | At a domain's first 429 the frontier stores what the scheduler notes exactly if the minimum delay is at most two seconds. |
| `Scheduler.NonNormalEscapes` | document_processor/crawling/scheduler.py:338-339 | The step behind `CrawlRaces.Escapes`, on any store: the forced re-queue of a URL that is not its own normal form queues a different one instead. |
| `CrawlSteps.UndisturbedAdd` | document_processor/crawling/url_frontier.py:325-364 | The steps of an add, without another in between, are `AddUrl`. |
| `CrawlSteps.UndisturbedRequeue` | document_processor/crawling/scheduler.py:338-339 | Those of the re-queue after a 429 are `AddUrl` with `force`. |
| `CrawlSteps.UndisturbedFetch` | document_processor/crawling/url_frontier.py:406-467 | Those of a fetch are `GetNextUrl`: it ends at rest or with the URL `Scan` picks, released. |
| `CrawlSteps.UndisturbedWorker` | document_processor/crawling/scheduler.py:303-400 | Those of a worker after its handler are `WorkerFinish`. |
| `Pipeline.CrawlPipeline.Submit` | document_processor/orchestration/pipeline.py:408-417 | The document joins the end of the fetch queue and the in-pipeline count. |
| `Pipeline.CrawlPipeline.Dequeue` | document_processor/orchestration/pipeline.py:457-463 | A worker takes the oldest document of its stage. |
| `Pipeline.CrawlPipeline.Finish` | document_processor/orchestration/pipeline.py:469-500 | The document goes to the next queue, to processed or to failed, whatever errors its handler left or cleared, or is lost if the handler returned none; only the counters of that fate move. |
| `Pipeline.SettleOnTrack` | document_processor/orchestration/pipeline.py:469-500 | From a document on track, every handler outcome leads to the next stage on track, to a complete document, to one with an error, or loses it unchanged. |
| `Pipeline.FatesByOutcome` | document_processor/orchestration/pipeline.py:443-507 | In every run: lost are the cancelled and those whose handler returned no document; failed those whose handler raised or left errors; processed those whose sixth handler returned without; the pipeline's counters say the same. |
| `Pipeline.OutcomeMoves` | document_processor/orchestration/pipeline.py:469-500 | In every run, where each outcome takes the document, and that nothing else moves: to the end of the next queue with its stage completed, to processed, to failed with one more error if the handler raised, or lost as it was. |
| `Pipeline.FirstInFirstOut` | document_processor/orchestration/pipeline.py:443-507 | In every run the documents of a stage are taken in the order in which they joined its queue. |
| `Pipeline.Conservation` | document_processor/orchestration/pipeline.py:408-507 | In every interleaving, submitted is processed plus failed plus in-pipeline, in-pipeline is queued plus held plus lost, and each document is in one place. |
| `Pipeline.StageOrder` | document_processor/orchestration/pipeline.py:443-507 | A document waiting at a stage has completed exactly the stages before it, in order, on top of those it was submitted with; a processed one all six without errors; a failed one has an error. |
| `Pipeline.SettlesWithin` | document_processor/orchestration/pipeline.py:443-507 | `n` documents need at most `6 n` handler completions, and when nothing is queued or held all are settled or lost. |
| `WindowFilter.ExactlyOnceIff` | document_processor/api/local_ai_routes_simple.py:2054-2059 | The filter lets every item through once, in order of first appearance, exactly if every repeat comes while the item is among the last `w` new ones. |
| `WindowFilter.PromptFilters` | document_processor/api/local_ai_routes_simple.py:2054-2059 | With prompt repeats, the filter remembers exactly the last `w` distinct items. |
| `WindowFilter.LateRepeats` | document_processor/api/local_ai_routes_simple.py:2054-2059 | One late repeat is enough for some item to get through twice. |
| `EventStream.Session.Publish` | document_processor/api/local_ai_routes_simple.py:1601-1611 | Up to its await a publish puts the event on the bounded queue, which drops its oldest event when it is full. |
| `EventStream.Session.Send` | document_processor/api/local_ai_routes_simple.py:1612-1618 | The event goes to the channel unless Redis fails, which is swallowed. |
| `EventStream.Session.Pump` | document_processor/api/local_ai_routes_simple.py:2015-2018 | The pump moves the channel's head to a queue with room. |
| `EventStream.Session.Take` | document_processor/api/local_ai_routes_simple.py:2046-2062 | The consumer takes, filters, sends and stops at a terminal event. |
| `EventStream.ExactlyOnce` | document_processor/api/local_ai_routes_simple.py:1588-2062 | With a subscriber from the start, no overflow, and no Redis copy entering the queue after 200 further new events, in whatever order publishers reach the channel: the stream has sent each event at most once and in order, and once ended or emptied exactly the published ones up to the first terminal one; the queue never exceeds 500. |
| `EventStream.OverflowDropsOldest` | document_processor/api/local_ai_routes_simple.py:1601-1611 | In every run the queue holds the latest of what was put on it, in order; the rest was consumed or, one event for each publisher that found 500 there, dropped from the front. |
| `EventStream.RepeatsIffLate` | document_processor/api/local_ai_routes_simple.py:2008-2059 | Without overflow, an emptied stream has sent some event twice exactly if some Redis copy came that late. |
| `EventStream.LateCopyPossible` | document_processor/api/local_ai_routes_simple.py:2008-2018 | For any notion of terminal event, a run without overflow in which a copy comes too late. |
| `EventStream.RepeatPossible` | document_processor/api/local_ai_routes_simple.py:2008-2059 | With no terminal event, a run without overflow that sends an event twice. |
| `KeyedWrites.Collection.FindOneAndUpdate` | document_processor/infrastructure/chat_store.py:286-291 | The keyed upsert, with the duplicate-key error of the primary key. |
| `KeyedWrites.Collection.WriteWithRetry` | document_processor/infrastructure/chat_store.py:59-92 | The retry loop refines a sequence of single attempts, whatever befalls each, including a duplicate-key error that is taken for a transient one. |
| `KeyedWrites.RunInv` | document_processor/infrastructure/chat_store.py:59-92 | What every interleaving of callers, faults and deletions keeps: unique keys, first effective write wins, answers tied to stored documents. |
| `KeyedWrites.AtMostOneDocument` | document_processor/infrastructure/chat_store.py:270-293 | For any callers and errors a key has at most one document, the first write that took effect since the key's last deletion. |
| `KeyedWrites.SameAnswer` | document_processor/infrastructure/chat_store.py:539-564 | Callers with one key that were answered between the same deletions got the same document. |
| `KeyedWrites.AnswerIsStored` | document_processor/infrastructure/chat_store.py:891-932 | An answer is what the store still holds unless the key was deleted since. |
| `KeyedWrites.RetriesWhileTransient` | document_processor/infrastructure/chat_store.py:59-92 | In every interleaving an unanswered caller goes on exactly as long as it has attempts left and every error so far was transient; an answer comes from an attempt without an error; nobody makes more attempts than allowed. |
| `RefreshTokens.TokenTable.IssueRefreshToken` | document_processor/auth/service.py:358-387 | One live row with its user and parent is added; no other row changes. |
| `RefreshTokens.TokenTable.ValidateAndRevoke` | document_processor/auth/service.py:403-456 | The first transaction of a rotation: unknown, expired and disabled change nothing, a replay revokes all of the user's rows, a rotation just the one presented. |
| `RefreshTokens.TokenTable.RevokeRefreshToken` | document_processor/auth/service.py:465-477 | Just the token presented is revoked; an unknown one changes nothing. |
| `RefreshTokens.TokenTable.RevokeAllForUser` | document_processor/auth/service.py:479-488 | Exactly the rows of that user are revoked. |
| `RefreshTokens.TokenForest` | document_processor/auth/service.py:358-463 | With each transaction as one step, in every run the tokens form a forest with one user per chain and at most one child per token, and a chain has at most one token that is live or about to be issued. |
| `RefreshTokens.RevocationIsFinal` | document_processor/auth/service.py:425-488 | Over any continuation a revoked token stays revoked and keeps its user and parent. |
| `RefreshTokens.SuccessorsWerePresented` | document_processor/auth/service.py:403-463 | In every run, with read and write as separate steps: every token with a parent, every rotation between its transactions and every one that has read and not written goes back to a presentation of that token by an active account, not after its expiry. |
| `RefreshTokens.LateNeverSucceeded` | document_processor/auth/service.py:439-444 | A token only ever presented after its expiry, or by a disabled account, has no successor and none on the way. |
| `RefreshTokens.AtomicSuccessorsWerePresented` | document_processor/auth/service.py:403-463 | The same with each transaction as one step. |
| `RefreshTokens.InTimeSucceeds` | document_processor/auth/service.py:446-463 | A known, live and unexpired token of an active account, presented and issued, is revoked and has a live successor of its user; nothing else changes. |
| `RefreshTokens.RefusedChangesNothing` | document_processor/auth/service.py:421-444 | An unknown token, and a live one that is expired or whose account is disabled, changes nothing. |
| `RefreshTokens.RotationsConserved` | document_processor/auth/service.py:403-463 | In every run each rotation that was started has issued its token, is between its two transactions, or crashed there. |
| `RefreshTokens.ReplayRevokesAll` | document_processor/auth/service.py:425-437 | Presenting a revoked token leaves its user without a live one. |
| `RefreshTokens.ReplayLocksOutIff` | document_processor/auth/service.py:425-463 | With read and write of the first transaction as separate steps, in every state: the write of replay detection leaves the user without a live token over every continuation without a login of theirs exactly if no rotation of theirs is between its two transactions and none has read its row without having written it. |
| `RefreshTokens.PresentLocksOutIff` | document_processor/auth/service.py:425-463 | The same for a replay that reads and writes without a step in between. |
| `RefreshTokens.LockedOutIff` | document_processor/auth/service.py:358-463 | In every state, a user is without a live token over every such continuation exactly if nothing of theirs is live, between transactions, or read and not yet written. |
| `RefreshTokens.AtomicReplayLocksOutIff` | document_processor/auth/service.py:425-463 | Were each transaction one step, exactly if no rotation of theirs is between its two transactions. |
| `RefreshTokens.ReplayMissesRead` | document_processor/auth/service.py:405-463 | A run in which a replay leaves nothing live and nothing pending, and the user holds a live token again without a login. |
| `RefreshTokens.TokenForestIff` | document_processor/auth/service.py:403-463 | With read and write of the first transaction as separate steps: a run keeps the law of `TokenForest` throughout exactly if every rotation writes to a row that is still live, or that has no successor and whose chain has nothing live and nothing pending. |
| `RefreshTokens.RotateKeepsLawIff` | document_processor/auth/service.py:446-456 | The same for one write, from any state that has the law. |
| `RefreshTokens.UndisturbedIsPresent` | document_processor/auth/service.py:405-456 | Read and write without a step in between are the transaction taken as one step. |
| `RefreshTokens.RaceForks` | document_processor/auth/service.py:405-463 | A run from an empty table in which two requests read before either writes, and a chain ends with two live tokens. |
| `Lockout.AccountRow.Authenticate` | document_processor/auth/service.py:264-309 | Undisturbed: a locked account checks no password; a failure counts and locks from the limit on; a success clears both. |
| `Lockout.AccountRow.Open` | document_processor/auth/service.py:237-268 | The read: the stored count, or nothing while the lock is in force. |
| `Lockout.AccountRow.Write` | document_processor/auth/service.py:270-309 | The write: one more than the count that was read, with a lock from the limit on; a success clears both. |
| `Lockout.FailureBound` | document_processor/auth/service.py:237-309 | For a positive lockout, if every failed attempt writes over the count it read and while no lock is in force: since the last success there are at most the limit plus one failed check per whole lockout period since the first lock. |
| `Lockout.ThrottledIff` | document_processor/auth/service.py:237-309 | In every interleaving: the counter is the number of failed checks since the last success and those from the limit on are a lockout period apart, throughout, exactly if every failed attempt writes that way. |
| `Lockout.UndisturbedFailureBound` | document_processor/auth/service.py:237-309 | The bound if no write falls between another attempt's read and its write. |
| `Lockout.CounterExactIff` | document_processor/auth/service.py:237-309 | In every interleaving the counter is the number of failed checks since the last success, throughout, exactly if every failed attempt writes while the stored count is still the one it read. |
| `Lockout.CounterExactIffUndisturbed` | document_processor/auth/service.py:237-309 | While nobody succeeds, exactly if no write falls between another attempt's read and its write. |
| `Lockout.OverlapCountsOnce` | document_processor/auth/service.py:237-309 | For every `n`, a run of `n` failed checks at one instant with a stored count of 1 and, for a limit above 1, no lock. |
| `Lockout.SerialIsUndisturbed` | document_processor/auth/service.py:237-309 | Attempts that follow one another are interleavings of that undisturbed kind, with the same outcome. |
| `Lockout.FailureBoundIsReached` | document_processor/auth/service.py:264-309 | For every limit, lockout and number of periods, a run that meets the bound. |
| `Simhash.HammingDistance` | document_processor/processing/deduplicator.py:290-299 | The `xor & (xor - 1)` loop ends with the number of one bits. |
| `Bits.ClearLowest` | document_processor/processing/deduplicator.py:296-298 | `x & (x - 1)` has one bit fewer than `x`. |
| `Bits.OnesOfXor` | document_processor/processing/deduplicator.py:293 | The one bits of the exclusive or are the positions in which two numbers differ. |
| `Bits.BitByBit` | document_processor/processing/deduplicator.py:284-298 | And, or and exclusive or work bit by bit. |
| `Simhash.DistanceIsHamming` | document_processor/processing/deduplicator.py:290-299 | That number counts the positions in which the hashes differ. |
| `Simhash.ComputeSimhash` | document_processor/processing/deduplicator.py:259-288 | The voting loop and the bit-setting loop compute `Fingerprint`, the number whose bits are the positive votes. |
| `Simhash.FingerprintIsMajority` | document_processor/processing/deduplicator.py:271-288 | A bit is set exactly if more than half of the tokens have it; the fingerprint is below two to the number of bits. |
| `Simhash.FingerprintPermute` | document_processor/processing/deduplicator.py:271-288 | The fingerprint depends only on the multiset of tokens. |
| `Simhash.SimilarityDeduplicator.IsDuplicate` | document_processor/processing/deduplicator.py:306-335 | A content is a duplicate exactly if some stored fingerprint is similar enough; the store and the counters after the call. |
| `Simhash.StoredApart` | document_processor/processing/deduplicator.py:301-335 | Any two stored fingerprints are different and less similar than the threshold. |
| `Simhash.SimilarIff` | document_processor/processing/deduplicator.py:301-304 | Two 64-bit fingerprints are similar enough exactly if they differ in at most that share of the 64 positions. |
| `Simhash.DuplicateIff` | document_processor/processing/deduplicator.py:306-335 | In every run the next fingerprint is counted as a duplicate exactly if it differs from some stored one in at most that share of the positions; otherwise it is stored behind the others. |
| `Simhash.AccountedIff` | document_processor/processing/deduplicator.py:316-335 | Seen is duplicates plus stored after every call of every run exactly for thresholds up to 1. |
| `PlainChunker.ChunkText` | document_processor/core/utils.py:81-91 | For an empty text or an overlap smaller than the chunk, the loop collects the windows at every stride; `TerminatesIff` shows that no other call returns. |
| `PlainChunker.TerminatesIff` | document_processor/core/utils.py:85-89 | The loop ends exactly if the text is empty or the overlap is smaller than the chunk. |
| `PlainChunker.ChunksTile` | document_processor/core/utils.py:81-91 | The number of chunks is the length over the stride, rounded up; each chunk is its window; cut to the stride they give the text back. |
| `SentenceChunker.ChooseEnd` | document_processor/rag/rag_engine.py:332-340 | The search loop finds the end of the last occurrence of the first kind of punctuation that occurs in the window, or the window's end. |
| `SentenceChunker.ChunkText` | document_processor/rag/rag_engine.py:325-348 | For every call that returns, the chunks collected round by round. |
| `SentenceChunker.AdvancingRunCovers` | document_processor/rag/rag_engine.py:331-348 | If every chosen end is more than the overlap past its start, the loop ends and every non-blank position lies in the stretch of some chunk. |
| `SentenceChunker.ChunksAreSpans` | document_processor/rag/rag_engine.py:341-344 | The chunks are stretches of the text, and a position is covered exactly if it lies in one of them. |
| `SentenceChunker.RoomyAdvances` | document_processor/rag/rag_engine.py:331-346 | That every round advances follows from a condition a caller can check on the text: no window of the chunk size has its break within the overlap. |
| `SentenceChunker.HaltsIffAdvances` | document_processor/rag/rag_engine.py:331-346 | For every text and an overlap smaller than the chunk: the loop ends exactly if it starts or comes back from below zero once more, after rounds that all start below zero or do not move forward, and from there on every round chooses an end more than the overlap past its start. |
| `SentenceChunker.StallAfterAdvance` | document_processor/rag/rag_engine.py:331-346 | After a round that moves forward, one that does not is a fixed point of the loop. |
| `SentenceChunker.EarlyOnceHaltsIff` | document_processor/rag/rag_engine.py:331-346 | In particular, unless several punctuations end within the first `overlap` characters: exactly if every round advances, the first one excepted if it ends within the overlap itself. |
| `SentenceChunker.StallsAgain` | document_processor/rag/rag_engine.py:334-346 | A round that does not move forward is followed by another one, whatever punctuation the next window finds, unless `start` falls below zero. |
| `SentenceChunker.HaltsIff` | document_processor/rag/rag_engine.py:331-346 | For any text and an overlap smaller than the chunk, the loop ends exactly if it does so within length plus overlap rounds. |
| `SentenceChunker.LargeOverlapNeverHalts` | document_processor/rag/rag_engine.py:331-346 | With an overlap at least as large as the chunk it never ends on a text longer than the chunk. |
| `SentenceChunker.StuckAtSentence` | document_processor/rag/rag_engine.py:331-346 | A sentence end followed by a sentence that outlasts the window is a fixed point of the loop. |
| `SentenceTexts.NeverLeavesStart` | document_processor/rag/rag_engine.py:331-346 | For every chunk size above an overlap of at least two, a text on which the loop never leaves its start. |
| `SentenceTexts.FallsAgain` | document_processor/rag/rag_engine.py:331-346 | A text with two early punctuations on which `start` falls below zero twice, with chunks of three overlaps, and where that particular form does not decide. |
| `SentenceTexts.SecondFallCovers` | document_processor/rag/rag_engine.py:331-346 | On that text, for every whitespace that includes the space and not the punctuation, nothing is lost although the gap of the first round is not blank. |
| `SentenceChunker.CoversIff` | document_processor/rag/rag_engine.py:331-346 | For every text, a loop that ends covers every non-blank position exactly if the rounds before it last comes back from below zero cover those before the place where it comes back. |
| `SentenceChunker.EarlyOnceCoversIff` | document_processor/rag/rag_engine.py:331-346 | In particular, unless several punctuations end within the first `overlap` characters: exactly if the first round ends at least an overlap into the text, or nothing but blanks lies between that end and where the loop resumes. |
| `SentenceChunker.LostOnlyInGaps` | document_processor/rag/rag_engine.py:331-346 | For every text and chunks longer than two overlaps, a loop that ends loses non-blank characters only between the end of a round that ended within the first `overlap` characters and where the loop resumed. |
| `SentenceTexts.DropsText` | document_processor/rag/rag_engine.py:331-346 | For every overlap of at least three and chunks longer than two overlaps, a text on which the loop ends and a character is in no chunk. |
| `DeadLetter.DeadLetterQueue.GetMessages` | document_processor/reliability/error_handler.py:69-82 | The entries a retry works on, for a missing, zero, positive or negative limit. |
| `DeadLetter.TakenIff` | document_processor/reliability/error_handler.py:69-82 | Which entries a retry works on, place by place: all for no limit or zero, those with fewer before them than a positive limit, those with more from them on than the size of a negative one. |
| `DeadLetter.DeadLetterQueue.RemoveMessage` | document_processor/reliability/error_handler.py:84-93 | Just the entry at the index goes; an index out of range changes nothing. |
| `DeadLetter.RetryDlqMessages` | document_processor/reliability/error_handler.py:296-331 | The loop as written, with other tasks appending meanwhile, refines `After`; its statistics count the successes and failures. |
| `DeadLetter.RetryAsMeant` | document_processor/reliability/error_handler.py:296-331 | With the number of successes as offset, the loop leaves the failed entries, those beyond the limit and the newcomers, in order. |
| `DeadLetter.ExpectedStep` | document_processor/reliability/error_handler.py:301-325 | Before each retry, its entry stands right behind the failed ones, which is the offset that is right. |
| `DeadLetter.WrittenIffBalanced` | document_processor/reliability/error_handler.py:301-312 | For entries that can be told apart, the loop as written leaves the same exactly if every success finds as many failures as successes before it. |
| `DeadLetter.TwoSuccesses` | document_processor/reliability/error_handler.py:301-312 | Two successes leave a processed entry behind. |

## Left out

- HTTP routes, event formatting, metrics, logging, the terminal dashboard: plumbing around the modelled state.
- Scraping, translation, embedding, language-model and Kafka clients: foreign calls; handlers and processors are arbitrary here.
- Errors raised by Redis inside the frontier or the scheduler.
- A second scheduler on the same Redis keys: one scheduler fetches.
- The scheduler's backpressure, its own rate limits, pause, stop and idle timeout, and `get_next_url`'s waiting loop, which repeats the scan: they only decide when the modelled steps happen.
- A scheduler without a URL handler, and URL metadata, active-domain sets and statistics in Redis: nothing depends on them.
- Scheduler and frontier with different delay settings: the model gives both the same configuration.
- The errors that `urlparse` raises for brackets and for compatibility characters in the host.
- Lower-casing outside ASCII, and floating-point rounding of times, rates and similarities.
- Per-stage statistics of the pipeline, and handlers that rewrite `completed_stages` or a document's identity.
- Events that only the other replica publishes, and the initial snapshot of the stream.
- Keyed writes whose documents are later updated by other operations, and writes without a key, which promise nothing.
- The adaptive, Redis-backed and per-domain limiters, the scraper's own breaker, `TaskManager` and the exact-hash deduplicator: they add no harder law.
