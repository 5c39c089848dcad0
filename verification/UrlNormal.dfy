/**
 URL normalisation on the parts that `urlparse` yields. The parts it never looks at
 (parameters and fragment) are left aside here; `UrlStrings` has the parser.
 */
module UrlNormal {

  datatype Url = Url(scheme: string, netloc: string, path: string, query: string)

  // ----- characters and prefixes -----

  /** `str.lower` on ASCII. */
  function LowerChar(c: char): char {
    if 'A' <= c <= 'Z' then (c as int + 32) as char else c
  }

  function Lower(s: string): (r: string)
    ensures |r| == |s|
  {
    if s == "" then "" else [LowerChar(s[0])] + Lower(s[1..])
  }

  predicate EndsWith(s: string, t: string) {
    |t| <= |s| && s[|s| - |t|..] == t
  }

  function StripSuffix(s: string, t: string): string {
    if EndsWith(s, t) then s[..|s| - |t|] else s
  }

  /** Drops a default port, once. */
  function StripPort(scheme: string, netloc: string): string {
    if scheme == "http" then StripSuffix(netloc, ":80")
    else if scheme == "https" then StripSuffix(netloc, ":443")
    else netloc
  }

  function RStripSlashes(s: string): (r: string)
    ensures |r| <= |s| && r == s[..|r|]
    ensures r != "" ==> r[|r| - 1] != '/'
  {
    if s != "" && s[|s| - 1] == '/' then RStripSlashes(s[..|s| - 1]) else s
  }

  function NormalPath(path: string): string {
    if RStripSlashes(path) == "" then "/" else RStripSlashes(path)
  }

  // ----- query parameters -----

  function Split(s: string): (r: seq<string>)
    ensures |r| >= 1
  {
    if s == "" then [""]
    else
      var rest := Split(s[1..]);
      if s[0] == '&' then [""] + rest else [[s[0]] + rest[0]] + rest[1..]
  }

  function Join(parts: seq<string>): string
    requires |parts| >= 1
  {
    if |parts| == 1 then parts[0] else parts[0] + "&" + Join(parts[1..])
  }

  /** Python's order on strings: lexicographic by code point. */
  predicate LexLe(a: string, b: string) {
    a == "" || (b != "" && (a[0] < b[0] || (a[0] == b[0] && LexLe(a[1..], b[1..]))))
  }

  function Insert(x: string, s: seq<string>): (r: seq<string>)
    ensures |r| == |s| + 1
  {
    if s == [] then [x]
    else if LexLe(x, s[0]) then [x] + s
    else [s[0]] + Insert(x, s[1..])
  }

  function Sort(s: seq<string>): (r: seq<string>)
    ensures |r| == |s|
  {
    if s == [] then [] else Insert(s[0], Sort(s[1..]))
  }

  function NormalQuery(query: string): string {
    if query == "" then "" else Join(Sort(Split(query)))
  }

  // ----- the normal form -----

  function Normal(u: Url): Url {
    var scheme := Lower(u.scheme);
    Url(scheme, StripPort(scheme, Lower(u.netloc)), NormalPath(u.path), NormalQuery(u.query))
  }

  function Render(u: Url): string {
    u.scheme + "://" + u.netloc + u.path + if u.query == "" then "" else "?" + u.query
  }

  // ----- order and sorting -----

  lemma {:induction false} LexTotal(a: string, b: string)
    ensures LexLe(a, b) || LexLe(b, a)
  {
    if a != "" && b != "" && a[0] == b[0] {
      LexTotal(a[1..], b[1..]);
    }
  }

  lemma {:induction false} LexAntisymmetric(a: string, b: string)
    requires LexLe(a, b) && LexLe(b, a)
    ensures a == b
  {
    if a != "" && b != "" {
      LexAntisymmetric(a[1..], b[1..]);
      assert a == [a[0]] + a[1..] && b == [b[0]] + b[1..];
    }
  }

  lemma {:induction false} LexTransitive(a: string, b: string, c: string)
    requires LexLe(a, b) && LexLe(b, c)
    ensures LexLe(a, c)
  {
    if a != "" && a[0] == b[0] == c[0] {
      LexTransitive(a[1..], b[1..], c[1..]);
    }
  }

  /** Sorted, recursively: the head is below everything behind it. */
  /** `a` begins `b`, or has the smaller character where they first differ. */
  ghost predicate Precedes(a: string, b: string) {
    a <= b || exists k :: 0 <= k < |a| && k < |b| && a[..k] == b[..k] && a[k] < b[k]
  }

  lemma {:induction false} SameHead(a: string, b: string, k: nat)
    requires 0 < k <= |a| && k <= |b| && a[..k] == b[..k]
    ensures a[0] == b[0]
  {
    assert a[..k][0] == b[..k][0];
  }

  lemma {:induction false} TailPrecedes(a: string, b: string)
    requires a != "" && b != "" && a[0] == b[0] && Precedes(a, b)
    ensures Precedes(a[1..], b[1..])
  {
    if !(a <= b) {
      var k :| 0 <= k < |a| && k < |b| && a[..k] == b[..k] && a[k] < b[k];
      assert a[1..][..k - 1] == a[..k][1..] && b[1..][..k - 1] == b[..k][1..];
      assert a[1..][k - 1] < b[1..][k - 1];
    }
  }

  lemma {:induction false} ConsPrecedes(a: string, b: string)
    requires a != "" && b != "" && a[0] == b[0] && Precedes(a[1..], b[1..])
    ensures Precedes(a, b)
  {
    var c, d := a[1..], b[1..];
    assert a == [a[0]] + c && b == [b[0]] + d;
    if !(c <= d) {
      var k :| 0 <= k < |c| && k < |d| && c[..k] == d[..k] && c[k] < d[k];
      assert a[..k + 1] == [a[0]] + c[..k] && b[..k + 1] == [b[0]] + d[..k];
      assert a[k + 1] < b[k + 1];
    }
  }

  lemma {:induction false} HeadPrecedes(a: string, b: string)
    requires a != "" && b != "" && a[0] != b[0]
    ensures Precedes(a, b) <==> a[0] < b[0]
  {
    assert a[..0] == b[..0];
    if Precedes(a, b) && !(a <= b) {
      var k :| 0 <= k < |a| && k < |b| && a[..k] == b[..k] && a[k] < b[k];
      if k > 0 {
        SameHead(a, b, k);
      }
    }
  }

  /** The order is that of the first difference. */
  lemma {:induction false} LexIsPrecedes(a: string, b: string)
    ensures LexLe(a, b) <==> Precedes(a, b)
  {
    if a != "" && b != "" && a[0] == b[0] {
      LexIsPrecedes(a[1..], b[1..]);
      hide Precedes;
      if Precedes(a, b) {
        TailPrecedes(a, b);
      }
      if Precedes(a[1..], b[1..]) {
        ConsPrecedes(a, b);
      }
    } else if a != "" && b != "" {
      HeadPrecedes(a, b);
      hide Precedes;
    }
  }

  ghost predicate Ordered(s: seq<string>) {
    s != [] ==> (forall x :: x in s ==> LexLe(s[0], x)) && Ordered(s[1..])
  }

  lemma {:induction false} InsertOrdered(x: string, s: seq<string>)
    requires Ordered(s)
    ensures Ordered(Insert(x, s)) && multiset(Insert(x, s)) == multiset{x} + multiset(s)
  {
    hide LexLe;
    var r := Insert(x, s);
    if s == [] {
      LexTotal(x, x);
    } else {
      assert s == [s[0]] + s[1..];
      LexTotal(x, s[0]);
      if LexLe(x, s[0]) {
        forall y | y in r ensures LexLe(x, y) {
          LexTotal(x, x);
          if y != x {
            assert y in s;
            LexTransitive(x, s[0], y);
          }
        }
        assert r[1..] == s;
      } else {
        InsertOrdered(x, s[1..]);
        assert r[1..] == Insert(x, s[1..]);
        forall y | y in r ensures LexLe(s[0], y) {
          assert y in multiset(r);
          assert multiset(r) == multiset{s[0]} + multiset(Insert(x, s[1..]));
          assert y == x || y in multiset(s);
        }
      }
    }
  }

  lemma {:induction false} SortOrdered(s: seq<string>)
    ensures Ordered(Sort(s)) && multiset(Sort(s)) == multiset(s)
  {
    if s != [] {
      SortOrdered(s[1..]);
      InsertOrdered(s[0], Sort(s[1..]));
      assert s == [s[0]] + s[1..];
    }
  }

  lemma {:induction false} TailBag(a: seq<string>)
    requires a != []
    ensures a == [a[0]] + a[1..] && multiset(a[1..]) == multiset(a) - multiset{a[0]}
  {
    assert a == [a[0]] + a[1..];
  }

  /** A multiset of strings has one sorted listing. */
  lemma {:induction false} OrderedUnique(a: seq<string>, b: seq<string>)
    requires Ordered(a) && Ordered(b) && multiset(a) == multiset(b)
    ensures a == b
  {
    hide LexLe;
    assert |a| == |multiset(a)| == |b|;
    if a != [] {
      assert a[0] in multiset(b) && b[0] in multiset(a);
      LexAntisymmetric(a[0], b[0]);
      TailBag(a);
      TailBag(b);
      OrderedUnique(a[1..], b[1..]);
    }
  }

  // ----- splitting and joining -----

  lemma {:induction false} JoinGrows(c: char, rest: seq<string>)
    requires |rest| >= 1
    ensures Join([""] + rest) == "&" + Join(rest)
    ensures Join([[c] + rest[0]] + rest[1..]) == [c] + Join(rest)
  {
    assert ([""] + rest)[1..] == rest;
    var all := [[c] + rest[0]] + rest[1..];
    assert all[1..] == rest[1..];
  }

  lemma {:induction false} JoinSplit(s: string)
    ensures Join(Split(s)) == s
  {
    hide Join;
    if s == "" {
      JoinOne("");
    } else {
      JoinSplit(s[1..]);
      JoinGrows(s[0], Split(s[1..]));
      assert s == [s[0]] + s[1..];
    }
  }

  lemma {:induction false} JoinOne(s: string)
    ensures Join([s]) == s
  {
  }

  ghost predicate NoAmp(parts: seq<string>) {
    forall i :: 0 <= i < |parts| ==> '&' !in parts[i]
  }

  lemma {:induction false} SplitNoAmp(s: string)
    ensures NoAmp(Split(s))
  {
    if s != "" {
      SplitNoAmp(s[1..]);
    }
  }

  lemma {:induction false} SplitPart(p: string, t: string)
    requires '&' !in p
    ensures Split(p) == [p]
    ensures Split(p + "&" + t) == [p] + Split(t)
  {
    var s := p + "&" + t;
    if p == "" {
      assert s[1..] == t;
    } else {
      SplitPart(p[1..], t);
      assert s[1..] == p[1..] + "&" + t;
      assert p == [p[0]] + p[1..];
    }
  }

  lemma {:induction false} SplitJoin(parts: seq<string>)
    requires |parts| >= 1 && NoAmp(parts)
    ensures Split(Join(parts)) == parts
  {
    if |parts| == 1 {
      SplitPart(parts[0], "");
    } else {
      SplitJoin(parts[1..]);
      SplitPart(parts[0], Join(parts[1..]));
      assert parts == [parts[0]] + parts[1..];
    }
  }

  ghost function Params(query: string): multiset<string> {
    multiset(Split(query))
  }

  /** The normal query lists the same parameters, sorted; the empty query is not a special case. */
  lemma {:induction false} NormalQuerySplits(query: string)
    ensures Split(NormalQuery(query)) == Sort(Split(query))
    ensures Params(NormalQuery(query)) == Params(query)
  {
    var parts := Split(query);
    SortOrdered(parts);
    SplitNoAmp(query);
    forall i | 0 <= i < |Sort(parts)| ensures '&' !in Sort(parts)[i] {
      assert Sort(parts)[i] in multiset(parts);
    }
    SplitJoin(Sort(parts));
  }

  lemma {:induction false} NormalQueryIdempotent(query: string)
    ensures NormalQuery(NormalQuery(query)) == NormalQuery(query)
  {
    NormalQueryIff(NormalQuery(query), query);
    NormalQuerySplits(query);
  }

  lemma {:induction false} NormalQueryIff(q: string, r: string)
    ensures NormalQuery(q) == NormalQuery(r) <==> Params(q) == Params(r)
  {
    NormalQuerySplits(q);
    NormalQuerySplits(r);
    if Params(q) == Params(r) {
      SortOrdered(Split(q));
      SortOrdered(Split(r));
      OrderedUnique(Sort(Split(q)), Sort(Split(r)));
      JoinSplit(NormalQuery(q));
      JoinSplit(NormalQuery(r));
    }
  }

  // ----- lower case, path and port -----

  lemma {:induction false} LowerIdempotent(s: string)
    ensures Lower(Lower(s)) == Lower(s)
  {
    if s != "" {
      LowerIdempotent(s[1..]);
      assert Lower(s)[1..] == Lower(s[1..]);
    }
  }

  lemma {:induction false} LowerPrefix(s: string, n: nat)
    requires n <= |s|
    ensures Lower(s[..n]) == Lower(s)[..n]
  {
    if n > 0 {
      LowerPrefix(s[1..], n - 1);
      assert s[..n][1..] == s[1..][..n - 1];
      assert s[..n] == [s[0]] + s[..n][1..];
    }
  }

  lemma {:induction false} RStripFixed(s: string)
    ensures RStripSlashes(RStripSlashes(s)) == RStripSlashes(s)
  {
  }

  lemma {:induction false} NormalPathIff(p: string, q: string)
    ensures NormalPath(p) == NormalPath(q) <==> RStripSlashes(p) == RStripSlashes(q)
    ensures NormalPath(NormalPath(p)) == NormalPath(p)
  {
    RStripFixed(p);
    assert RStripSlashes("/") == "" by {
      assert "/"[..0] == "";
    }
  }

  /** What a caller can check: the host part carries its default port twice. */
  predicate DoublePort(u: Url) {
    || (Lower(u.scheme) == "http" && EndsWith(u.netloc, ":80:80"))
    || (Lower(u.scheme) == "https" && EndsWith(u.netloc, ":443:443"))
  }

  lemma {:induction false} LowerEndsWith(s: string, t: string)
    requires forall i :: 0 <= i < |t| ==> t[i] == ':' || '0' <= t[i] <= '9'
    ensures EndsWith(Lower(s), t) <==> EndsWith(s, t)
  {
    if |t| <= |s| {
      forall i | 0 <= i < |t|
        ensures Lower(s)[|s| - |t| + i] == t[i] <==> s[|s| - |t| + i] == t[i]
      {
        LowerAt(s, |s| - |t| + i);
      }
      if EndsWith(s, t) {
        forall i | 0 <= i < |t| ensures Lower(s)[|s| - |t|..][i] == t[i] {
          assert s[|s| - |t|..][i] == t[i];
        }
        assert Lower(s)[|s| - |t|..] == t;
      }
      if EndsWith(Lower(s), t) {
        forall i | 0 <= i < |t| ensures s[|s| - |t|..][i] == t[i] {
          assert Lower(s)[|s| - |t|..][i] == t[i];
        }
        assert s[|s| - |t|..] == t;
      }
    }
  }

  lemma {:induction false} LowerAt(s: string, i: nat)
    requires i < |s|
    ensures Lower(s)[i] == LowerChar(s[i])
  {
    if i > 0 {
      LowerAt(s[1..], i - 1);
    }
  }

  /** Stripping a suffix `t` leaves a string that ends with `t` exactly if the string ended with `t` twice. */
  lemma {:induction false} EndsTwice(s: string, t: string)
    requires EndsWith(s, t)
    ensures EndsWith(s[..|s| - |t|], t) <==> EndsWith(s, t + t)
    ensures EndsWith(s[..|s| - |t|], t) ==> 2 * |t| <= |s|
  {
    var p := s[..|s| - |t|];
    assert s == p + t;
    if EndsWith(p, t) {
      var q := p[..|p| - |t|];
      assert p == q + t;
      assert s == q + (t + t);
      assert s[|s| - |t + t|..] == t + t;
    }
    if EndsWith(s, t + t) {
      assert s[|s| - |t + t|..][..|t|] == t;
      assert p[|p| - |t|..] == s[|s| - |t + t|..][..|t|];
    }
  }

  lemma {:induction false} StripSuffixIff(s: string, t: string)
    requires t != ""
    ensures StripSuffix(StripSuffix(s, t), t) == StripSuffix(s, t) <==> !EndsWith(s, t + t)
  {
    EndsOnce(s, t);
    if EndsWith(s, t) {
      EndsTwice(s, t);
    }
  }

  lemma {:induction false} EndsOnce(s: string, t: string)
    ensures EndsWith(s, t + t) ==> EndsWith(s, t)
  {
    if EndsWith(s, t + t) {
      assert s[|s| - |t|..] == s[|s| - |t + t|..][|t|..];
    }
  }

  lemma {:induction false} StripPortIff(scheme: string, netloc: string)
    requires Lower(scheme) == scheme
    ensures StripPort(scheme, StripPort(scheme, netloc)) == StripPort(scheme, netloc)
       <==> !DoublePort(Url(scheme, netloc, "", ""))
  {
    hide Lower, EndsWith, StripSuffix;
    assert ":80" + ":80" == ":80:80" && ":443" + ":443" == ":443:443";
    StripSuffixIff(netloc, ":80");
    StripSuffixIff(netloc, ":443");
  }

  lemma {:induction false} StripPortLower(scheme: string, netloc: string)
    requires Lower(netloc) == netloc
    ensures Lower(StripPort(scheme, netloc)) == StripPort(scheme, netloc)
  {
    LowerPrefix(netloc, |StripPort(scheme, netloc)|);
  }

  /** Normalising twice is normalising once, exactly if the default port does not stand there twice. */
  lemma {:induction false} IdempotentIff(u: Url)
    ensures Normal(Normal(u)) == Normal(u) <==> !DoublePort(u)
  {
    hide Lower, StripPort, NormalPath, NormalQuery, EndsWith;
    var scheme, netloc := Lower(u.scheme), Lower(u.netloc);
    LowerIdempotent(u.scheme);
    LowerIdempotent(u.netloc);
    NormalPathIff(u.path, u.path);
    NormalQueryIdempotent(u.query);
    StripPortLower(scheme, netloc);
    StripPortIff(scheme, netloc);
    LowerEndsWith(u.netloc, ":80:80");
    LowerEndsWith(u.netloc, ":443:443");
  }

  /** The host part that counts: lower case, without the default port. */
  function Host(u: Url): string {
    StripPort(Lower(u.scheme), Lower(u.netloc))
  }

  /**
   Two URLs have the same normal form exactly when scheme and host agree up to case and the
   default port, the paths up to trailing slashes, and the query parameters up to order.
   */
  lemma {:induction false} SameNormalFormIff(u: Url, v: Url)
    ensures Normal(u) == Normal(v) <==>
              && Lower(u.scheme) == Lower(v.scheme)
              && Host(u) == Host(v)
              && RStripSlashes(u.path) == RStripSlashes(v.path)
              && Params(u.query) == Params(v.query)
  {
    hide Lower, StripPort, NormalPath, NormalQuery, RStripSlashes, Params;
    NormalPathIff(u.path, v.path);
    NormalQueryIff(u.query, v.query);
  }

  // ----- the rendered string -----

  /** What `urlparse` guarantees of the parts of an absolute URL. */
  predicate WellFormed(u: Url) {
    && ':' !in u.scheme
    && '/' !in u.netloc && '?' !in u.netloc
    && (u.path != "" ==> u.path[0] == '/') && '?' !in u.path
  }

  lemma {:induction false} LowerIn(s: string, c: char)
    requires LowerChar(c) == c && !('a' <= c <= 'z') && c !in s
    ensures c !in Lower(s)
  {
    if s != "" {
      LowerIn(s[1..], c);
    }
  }

  lemma {:induction false} NormalWellFormed(u: Url)
    requires WellFormed(u)
    ensures WellFormed(Normal(u)) && Normal(u).path != ""
  {
    LowerIn(u.scheme, ':');
    LowerIn(u.netloc, '/');
    LowerIn(u.netloc, '?');
  }

  lemma {:induction false} NotBefore(a: string, x: string, c: char, i: nat)
    requires c !in a && i < |a + [c] + x| && (a + [c] + x)[i] == c
    ensures |a| <= i
  {
  }

  /** Two ways of cutting a string at the first `c` are the same. */
  lemma {:induction false} CutUnique(a: string, x: string, b: string, y: string, c: char)
    requires c !in a && c !in b && a + [c] + x == b + [c] + y
    ensures a == b && x == y
  {
    var s := a + [c] + x;
    assert s[|a|] == c && s[|b|] == c;
    NotBefore(b, y, c, |a|);
    NotBefore(a, x, c, |b|);
    assert a == s[..|a|] && b == s[..|b|];
    assert x == s[|a| + 1..] && y == s[|b| + 1..];
  }

  function Tail(u: Url): string {
    u.path + if u.query == "" then "" else "?" + u.query
  }

  lemma {:induction false} TailInjective(u: Url, v: Url)
    requires '?' !in u.path && '?' !in v.path && Tail(u) == Tail(v)
    ensures u.path == v.path && u.query == v.query
  {
    TailShape(u);
    TailShape(v);
    if u.query != "" {
      CutUnique(u.path, u.query, v.path, v.query, '?');
    }
  }

  lemma {:induction false} TailShape(u: Url)
    requires '?' !in u.path
    ensures u.query == "" <==> '?' !in Tail(u)
    ensures Tail(u) == if u.query == "" then u.path else u.path + ['?'] + u.query
  {
    if u.query != "" {
      assert Tail(u)[|u.path|] == '?';
    }
  }

  lemma {:induction false} RenderInjective(u: Url, v: Url)
    requires WellFormed(u) && WellFormed(v) && u.path != "" && v.path != ""
    requires Render(u) == Render(v)
    ensures u == v
  {
    var ut, vt := Tail(u), Tail(v);
    RenderCut(u);
    RenderCut(v);
    CutUnique(u.scheme, "//" + u.netloc + ut, v.scheme, "//" + v.netloc + vt, ':');
    HostCut(u.netloc, ut);
    HostCut(v.netloc, vt);
    CutUnique(u.netloc, ut[1..], v.netloc, vt[1..], '/');
    assert ut == ['/'] + ut[1..] && vt == ['/'] + vt[1..];
    TailInjective(u, v);
  }

  lemma {:induction false} RenderCut(u: Url)
    requires WellFormed(u) && u.path != ""
    ensures Render(u) == u.scheme + [':'] + ("//" + u.netloc + Tail(u))
    ensures Tail(u) != "" && Tail(u)[0] == '/'
  {
  }

  lemma {:induction false} HostCut(netloc: string, tail: string)
    requires tail != "" && tail[0] == '/'
    ensures ("//" + netloc + tail)[2..] == netloc + ['/'] + tail[1..]
  {
  }

  /** The canonical form as a string: equal exactly when the normal parts are. */
  lemma {:induction false} SameStringIff(u: Url, v: Url)
    requires WellFormed(u) && WellFormed(v)
    ensures Render(Normal(u)) == Render(Normal(v)) <==> Normal(u) == Normal(v)
  {
    hide Normal, Render, WellFormed;
    NormalWellFormed(u);
    NormalWellFormed(v);
    if Render(Normal(u)) == Render(Normal(v)) {
      RenderInjective(Normal(u), Normal(v));
    }
  }

  // ----- the default port -----

  /** A default port goes, whatever stands before it, and nothing else does. */
  lemma {:induction false} DefaultPortGoes(scheme: string, host: string)
    ensures StripPort("http", host + ":80") == host && StripPort("https", host + ":443") == host
    ensures StripPort(scheme, host) == host
         || (scheme == "http" && host == StripPort(scheme, host) + ":80")
         || (scheme == "https" && host == StripPort(scheme, host) + ":443")
  {
    assert (host + ":80")[|host|..] == ":80" && (host + ":443")[|host|..] == ":443";
    if EndsWith(host, ":80") {
      assert host == host[..|host| - 3] + host[|host| - 3..];
    }
    if EndsWith(host, ":443") {
      assert host == host[..|host| - 4] + host[|host| - 4..];
    }
  }

  // ----- the alphabet -----

  const UPPER := "ABCDEFGHIJKLMNOPQRSTUVWXYZ"
  const LOWER := "abcdefghijklmnopqrstuvwxyz"

  lemma {:induction false} Alphabet(k: nat)
    requires k < 26
    ensures |UPPER| == |LOWER| == 26 && UPPER[k] as int == 65 + k && LOWER[k] as int == 97 + k
  {
  }

  lemma {:induction false} SmallIff(c: char)
    ensures c in LOWER <==> 'a' <= c <= 'z'
  {
    if 'a' <= c <= 'z' {
      Alphabet(c as int - 97);
      assert LOWER[c as int - 97] == c;
    }
    if c in LOWER {
      var k :| 0 <= k < |LOWER| && LOWER[k] == c;
      Alphabet(k);
    }
  }

  lemma {:induction false} CapitalIff(c: char)
    ensures c in UPPER <==> 'A' <= c <= 'Z'
  {
    if 'A' <= c <= 'Z' {
      Alphabet(c as int - 65);
      assert UPPER[c as int - 65] == c;
    }
    if c in UPPER {
      var k :| 0 <= k < |UPPER| && UPPER[k] == c;
      Alphabet(k);
    }
  }

  /** Every capital becomes the small letter at its place of the alphabet; nothing else changes. */
  lemma {:induction false} LowerAlphabet(s: string, i: nat, k: nat)
    requires i < |s| && k < 26
    ensures |UPPER| == |LOWER| == 26 && |Lower(s)| == |s|
    ensures s[i] == UPPER[k] ==> Lower(s)[i] == LOWER[k]
    ensures s[i] !in UPPER ==> Lower(s)[i] == s[i]
  {
    hide Lower;
    LowerAt(s, i);
    CapitalIff(s[i]);
    Alphabet(k);
  }
}
