/**
 URL normalisation on strings: the cuts that `urlparse` makes, and what normalising a
 string twice does.
 */
module UrlStrings {
  import opened UrlNormal

  // ----- finding characters -----

  /** The first place where a character of `cs` stands, or the length. */
  function Find(s: string, cs: set<char>): (k: nat)
    ensures k <= |s|
    ensures forall i :: 0 <= i < k ==> s[i] !in cs
    ensures k < |s| ==> s[k] in cs
  {
    if s == "" || s[0] in cs then 0 else 1 + Find(s[1..], cs)
  }

  lemma {:induction false} FindIs(s: string, cs: set<char>, k: nat)
    requires k <= |s| && (k < |s| ==> s[k] in cs)
    requires forall i :: 0 <= i < k ==> s[i] !in cs
    ensures Find(s, cs) == k
  {
  }

  /** `s.rfind("/")`. */
  function LastSlash(s: string): (k: int)
    ensures -1 <= k < |s|
    ensures k >= 0 ==> s[k] == '/'
    ensures forall i :: k < i < |s| ==> s[i] != '/'
  {
    if s == "" then -1 else if s[|s| - 1] == '/' then |s| - 1 else LastSlash(s[..|s| - 1])
  }

  // ----- the parser -----

  ghost predicate Lacks(s: string, c: char) {
    forall i :: 0 <= i < |s| ==> s[i] != c
  }

  ghost predicate Tidy(s: string) {
    Lacks(s, '\t') && Lacks(s, '\r') && Lacks(s, '\n')
  }

  /** `lstrip` of control characters and spaces. */
  function LStrip(s: string): (r: string)
    ensures r == "" || r[0] > ' '
    ensures s == "" || s[0] > ' ' ==> r == s
  {
    if s == "" || s[0] > ' ' then s else LStrip(s[1..])
  }

  /** Without its tabs and line breaks. */
  function Untabbed(s: string): (r: string)
    ensures Tidy(r)
    ensures Tidy(s) ==> r == s
  {
    if s == "" then ""
    else if s[0] in {'\t', '\r', '\n'} then Untabbed(s[1..])
    else [s[0]] + Untabbed(s[1..])
  }

  /** What `urlparse` removes before it looks at a string. */
  function Clean(s: string): (r: string)
    ensures Tidy(r)
    ensures Tidy(s) && (s == "" || s[0] > ' ') ==> r == s
  {
    Untabbed(LStrip(s))
  }

  predicate Alpha(c: char) {
    'a' <= c <= 'z' || 'A' <= c <= 'Z'
  }

  predicate SchemeChar(c: char) {
    Alpha(c) || '0' <= c <= '9' || c == '+' || c == '-' || c == '.'
  }

  predicate ValidScheme(s: string) {
    s != "" && Alpha(s[0]) && forall i :: 0 <= i < |s| ==> SchemeChar(s[i])
  }

  /** The scheme in lower case, or nothing, and what follows its colon. */
  function SchemeOf(s: string): (string, string) {
    var i := Find(s, {':'});
    if i < |s| && ValidScheme(s[..i]) then (Lower(s[..i]), s[i + 1..]) else ("", s)
  }

  /** The host part behind `//`, and what follows it. */
  function Authority(rest: string): (string, string) {
    if |rest| >= 2 && rest[0] == '/' && rest[1] == '/' then
      var r := rest[2..];
      var j := Find(r, {'/', '?', '#'});
      (r[..j], r[j..])
    else ("", rest)
  }

  /** The path before and the query behind the first `?`; the fragment is cut off. */
  function PathAndQuery(tail: string): (string, string) {
    var body := tail[..Find(tail, {'#'})];
    var q := Find(body, {'?'});
    (body[..q], if q < |body| then body[q + 1..] else "")
  }

  function SplitUrl(s: string): Url {
    Cuts(Clean(s))
  }

  function Cuts(s: string): Url {
    var (scheme, rest) := SchemeOf(s);
    var (netloc, tail) := Authority(rest);
    var (path, query) := PathAndQuery(tail);
    Url(scheme, netloc, path, query)
  }

  /** The schemes for which `urlparse` splits parameters off the path. */
  const PARAM_SCHEMES: set<string> := {
    "", "ftp", "hdl", "prospero", "http", "imap", "https", "shttp", "rtsp", "rtsps", "rtspu",
    "sip", "sips", "mms", "sftp", "tel"}

  predicate TakesParams(scheme: string) {
    scheme in PARAM_SCHEMES
  }

  /** What stands behind the last slash. */
  function LastSegment(path: string): string {
    path[LastSlash(path) + 1..]
  }

  /** The path up to the first `;` of its last segment, if parameters are split off. */
  function CutParams(params: bool, path: string): string {
    if params then path[..LastSlash(path) + 1 + Find(LastSegment(path), {';'})] else path
  }

  /** `urlparse`, as far as normalisation looks at its result. */
  function Parse(s: string): Url {
    var u := SplitUrl(s);
    u.(path := CutParams(TakesParams(u.scheme), u.path))
  }

  /** `_normalize_url`. */
  function NormalizeString(s: string): string {
    Render(Normal(Parse(s)))
  }

  /** `_extract_domain`. */
  function DomainOf(s: string): string {
    Lower(Parse(s).netloc)
  }

  // ----- what the parts look like -----

  /** What the parser guarantees of the parts. */
  ghost predicate Parts(u: Url) {
    && (u.scheme == "" || (ValidScheme(u.scheme) && Lower(u.scheme) == u.scheme))
    && Lacks(u.netloc, '/') && Lacks(u.netloc, '?') && Lacks(u.netloc, '#')
    && Lacks(u.path, '?') && Lacks(u.path, '#') && Lacks(u.query, '#')
    && Tidy(u.netloc) && Tidy(u.path) && Tidy(u.query)
    && (u.netloc != "" ==> Rooted(u.path))
  }

  predicate Rooted(path: string) {
    path == "" || path[0] == '/'
  }

  lemma {:induction false} TidyPieces(s: string, i: nat)
    requires Tidy(s) && i <= |s|
    ensures Tidy(s[..i]) && Tidy(s[i..])
  {
  }

  lemma {:induction false} LowerValid(s: string)
    requires ValidScheme(s)
    ensures ValidScheme(Lower(s)) && Lower(Lower(s)) == Lower(s)
  {
    LowerIdempotent(s);
    forall i | 0 <= i < |s| ensures Lower(s)[i] == LowerChar(s[i]) {
      LowerAt(s, i);
    }
  }

  lemma {:induction false} SchemeParts(s: string)
    ensures var scheme := SchemeOf(s).0; scheme == "" || (ValidScheme(scheme) && Lower(scheme) == scheme)
  {
    hide ValidScheme;
    var i := Find(s, {':'});
    if i < |s| && ValidScheme(s[..i]) {
      LowerValid(s[..i]);
    }
  }

  lemma {:induction false} AuthorityParts(rest: string)
    ensures var (netloc, tail) := Authority(rest);
            && Lacks(netloc, '/') && Lacks(netloc, '?') && Lacks(netloc, '#')
            && (netloc != "" ==> tail == "" || tail[0] == '/' || tail[0] == '?' || tail[0] == '#')
  {
    if |rest| >= 2 && rest[0] == '/' && rest[1] == '/' {
      var r := rest[2..];
      var j := Find(r, {'/', '?', '#'});
      assert j < |r| ==> r[j..][0] == r[j];
    }
  }

  lemma {:induction false} PathParts(tail: string)
    ensures var (path, query) := PathAndQuery(tail);
            && Lacks(path, '?') && Lacks(path, '#') && Lacks(query, '#')
            && (tail == "" || tail[0] == '/' || tail[0] == '?' || tail[0] == '#' ==> Rooted(path))
  {
    var body := tail[..Find(tail, {'#'})];
    var q := Find(body, {'?'});
    assert forall i :: 0 <= i < |body| ==> body[i] == tail[i];
    if q < |body| {
      var query := body[q + 1..];
      assert forall i :: 0 <= i < |query| ==> query[i] == body[q + 1 + i];
    }
  }

  /** Every part is a piece of the string. */
  lemma {:induction false} TidyParts(s: string)
    requires Tidy(s)
    ensures Tidy(SchemeOf(s).1)
    ensures Tidy(Authority(s).0) && Tidy(Authority(s).1)
    ensures Tidy(PathAndQuery(s).0) && Tidy(PathAndQuery(s).1)
  {
    hide Tidy, Find, ValidScheme, Lower;
    EmptyTidy();
    var i := Find(s, {':'});
    if i < |s| {
      TidyPieces(s, i + 1);
    }
    if |s| >= 2 {
      TidyPieces(s, 2);
      TidyPieces(s[2..], Find(s[2..], {'/', '?', '#'}));
    }
    var f := Find(s, {'#'});
    TidyPieces(s, f);
    var q := Find(s[..f], {'?'});
    TidyPieces(s[..f], q);
    if q < |s[..f]| {
      TidyPieces(s[..f], q + 1);
    }
  }

  lemma {:induction false} EmptyTidy()
    ensures Tidy("")
  {
  }

  lemma {:induction false} CutsParts(c: string)
    requires Tidy(c)
    ensures Parts(Cuts(c))
  {
    hide SchemeOf, Authority, PathAndQuery, ValidScheme, Find, LastSlash, Tidy, Lacks;
    var rest := SchemeOf(c).1;
    var tail := Authority(rest).1;
    SchemeParts(c);
    AuthorityParts(rest);
    PathParts(tail);
    TidyParts(c);
    TidyParts(rest);
    TidyParts(tail);
  }

  lemma {:induction false} ParamsPrefix(params: bool, path: string)
    ensures CutParams(params, path) <= path
  {
    hide LastSlash, Find;
    if params {
      TakePrefix(path, LastSlash(path) + 1 + Find(LastSegment(path), {';'}));
    }
  }

  lemma {:induction false} TakePrefix(s: string, k: nat)
    requires k <= |s|
    ensures s[..k] <= s
  {
  }

  lemma {:induction false} PrefixParts(p: string, path: string)
    requires p <= path && Lacks(path, '?') && Lacks(path, '#') && Tidy(path)
    ensures Lacks(p, '?') && Lacks(p, '#') && Tidy(p) && (Rooted(path) ==> Rooted(p))
  {
    assert forall i :: 0 <= i < |p| ==> p[i] == path[i];
  }

  lemma {:induction false} ParseParts(s: string)
    ensures Parts(Parse(s)) && Parts(SplitUrl(s))
  {
    hide Cuts, Clean, ValidScheme, Lacks, Tidy, CutParams, TakesParams;
    CutsParts(Clean(s));
    ParamsPrefix(TakesParams(SplitUrl(s).scheme), SplitUrl(s).path);
    PrefixParts(Parse(s).path, SplitUrl(s).path);
  }

  // ----- the normal parts -----

  lemma {:induction false} LacksLower(s: string, c: char)
    requires Lacks(s, c) && LowerChar(c) == c && !('a' <= c <= 'z')
    ensures Lacks(Lower(s), c)
  {
    forall i | 0 <= i < |s| ensures Lower(s)[i] != c {
      LowerAt(s, i);
    }
  }

  ghost predicate AllLack(parts: seq<string>, c: char) {
    forall x :: x in parts ==> Lacks(x, c)
  }

  lemma {:induction false} SplitLacks(s: string, c: char)
    requires Lacks(s, c)
    ensures AllLack(Split(s), c)
  {
    if s != "" {
      assert forall i :: 0 <= i < |s[1..]| ==> s[1..][i] == s[i + 1];
      SplitLacks(s[1..], c);
      var rest := Split(s[1..]);
      assert rest[0] in rest;
      forall x | x in Split(s) ensures Lacks(x, c) {
        if s[0] == '&' {
          assert x == "" || x in rest;
        } else {
          assert x == [s[0]] + rest[0] || x in rest[1..];
        }
      }
    }
  }

  lemma {:induction false} JoinLacks(parts: seq<string>, c: char)
    requires |parts| >= 1 && AllLack(parts, c) && c != '&'
    ensures Lacks(Join(parts), c)
  {
    assert parts[0] in parts;
    if |parts| > 1 {
      assert forall x :: x in parts[1..] ==> x in parts;
      JoinLacks(parts[1..], c);
    }
  }

  lemma {:induction false} QueryLacks(q: string, c: char)
    requires Lacks(q, c) && c != '&'
    ensures Lacks(NormalQuery(q), c)
  {
    hide Lacks, Split, Sort, Join;
    if q != "" {
      var parts := Split(q);
      SplitLacks(q, c);
      SortOrdered(parts);
      forall x | x in Sort(parts) ensures Lacks(x, c) {
        assert x in multiset(Sort(parts));
        assert x in parts;
      }
      JoinLacks(Sort(parts), c);
    } else {
      assert Lacks("", c) by { EmptyLacks(c); }
    }
  }

  lemma {:induction false} EmptyLacks(c: char)
    ensures Lacks("", c)
  {
  }

  lemma {:induction false} PathLacks(p: string, c: char)
    requires Lacks(p, c) && c != '/'
    ensures Lacks(NormalPath(p), c)
  {
  }

  lemma {:induction false} HostLacks(scheme: string, netloc: string, c: char)
    requires Lacks(netloc, c)
    ensures Lacks(StripPort(scheme, netloc), c)
  {
  }

  /** The host part and path of a URL's normal form. */
  function Middle(u: Url): string {
    Normal(u).netloc + Normal(u).path
  }

  lemma {:induction false} NormalParts(u: Url)
    requires Parts(u)
    ensures Lacks(Normal(u).netloc, '/')
    ensures Lacks(Middle(u), '?') && Lacks(Middle(u), '#') && Lacks(Normal(u).query, '#')
    ensures Normal(u).scheme == u.scheme
    ensures Tidy(Middle(u)) && Tidy(Normal(u).query)
  {
    hide Lacks, StripPort, NormalPath, NormalQuery, ValidScheme;
    MiddleLacks(u, '\t');
    MiddleLacks(u, '\r');
    MiddleLacks(u, '\n');
    assert Lower("") == "";
    LacksLower(u.netloc, '/');
    LacksLower(u.netloc, '?');
    LacksLower(u.netloc, '#');
    HostLacks(Lower(u.scheme), Lower(u.netloc), '/');
    HostLacks(Lower(u.scheme), Lower(u.netloc), '?');
    HostLacks(Lower(u.scheme), Lower(u.netloc), '#');
    PathLacks(u.path, '?');
    PathLacks(u.path, '#');
    QueryLacks(u.query, '#');
    BothLack(Normal(u).netloc, Normal(u).path, '?');
    BothLack(Normal(u).netloc, Normal(u).path, '#');
  }

  lemma {:induction false} MiddleLacks(u: Url, c: char)
    requires Lacks(u.netloc, c) && Lacks(u.path, c) && Lacks(u.query, c)
    requires LowerChar(c) == c && !('a' <= c <= 'z') && c != '&' && c != '/'
    ensures Lacks(Middle(u), c) && Lacks(Normal(u).query, c)
  {
    hide Lacks, StripPort, NormalPath, NormalQuery, Lower;
    LacksLower(u.netloc, c);
    HostLacks(Lower(u.scheme), Lower(u.netloc), c);
    PathLacks(u.path, c);
    QueryLacks(u.query, c);
    BothLack(Normal(u).netloc, Normal(u).path, c);
  }

  lemma {:induction false} BothLack(a: string, b: string, c: char)
    requires Lacks(a, c) && Lacks(b, c)
    ensures Lacks(a + b, c)
  {
  }

  // ----- reading a rendered URL -----

  function QueryText(q: string): string {
    if q == "" then "" else "?" + q
  }

  function Text(scheme: string, middle: string, query: string): string {
    scheme + "://" + middle + QueryText(query)
  }

  lemma {:induction false} RenderIsText(u: Url)
    ensures Render(Normal(u)) == Text(Normal(u).scheme, Middle(u), Normal(u).query)
  {
    hide Normal;
    var n := Normal(u);
    assert n.scheme + "://" + n.netloc + n.path == n.scheme + "://" + (n.netloc + n.path);
  }

  lemma {:induction false} ReadScheme(scheme: string, x: string)
    requires ValidScheme(scheme) && Lower(scheme) == scheme
    ensures SchemeOf(scheme + [':'] + x) == (scheme, x)
  {
    var t := scheme + [':'] + x;
    FindIs(t, {':'}, |scheme|);
    assert t[..|scheme|] == scheme && t[|scheme| + 1..] == x;
  }

  /** Where a search behind `m` stops if `m` has none of the characters, or at `j` if it stops inside. */
  lemma {:induction false} FindAcross(m: string, x: string, cs: set<char>, j: nat)
    requires j <= |m| && (forall i :: 0 <= i < j ==> m[i] !in cs)
    requires if j < |m| then m[j] in cs else x == "" || x[0] in cs
    ensures Find(m + x, cs) == j
    ensures (m + x)[..j] == m[..j] && (m + x)[j..] == m[j..] + x
  {
    var r := m + x;
    assert forall i :: 0 <= i < |m| ==> r[i] == m[i];
    assert j == |m| && x != "" ==> r[j] == x[0];
    FindIs(r, cs, j);
  }

  lemma {:induction false} NoneBefore(m: string, j: nat)
    requires Lacks(m, '?') && Lacks(m, '#') && j <= |m| && Lacks(m[..j], '/')
    ensures forall i :: 0 <= i < j ==> m[i] !in {'/', '?', '#'}
  {
    forall i | 0 <= i < j ensures m[i] !in {'/', '?', '#'} {
      assert m[..j][i] == m[i];
    }
  }

  lemma {:induction false} QueryTextStarts(query: string)
    ensures QueryText(query) == "" || QueryText(query)[0] == '?'
  {
  }

  lemma {:induction false} FirstSlash(m: string)
    ensures var j := Find(m, {'/'}); Lacks(m[..j], '/') && (j < |m| ==> m[j] == '/')
  {
  }

  lemma {:induction false} ReadMiddle(m: string, query: string)
    requires Lacks(m, '?') && Lacks(m, '#')
    ensures var j := Find(m, {'/'}); Authority("//" + m + QueryText(query)) == (m[..j], m[j..] + QueryText(query))
  {
    hide *;
    var j, q := Find(m, {'/'}), QueryText(query);
    FirstSlash(m);
    NoneBefore(m, j);
    QueryTextStarts(query);
    FindAcross(m, q, {'/', '?', '#'}, j);
    ReadAuthority(m + q);
    assert "//" + m + q == "//" + (m + q);
  }

  lemma {:induction false} ReadAuthority(r: string)
    ensures var j := Find(r, {'/', '?', '#'}); Authority("//" + r) == (r[..j], r[j..])
  {
    hide Find;
    assert ("//" + r)[2..] == r;
  }

  lemma {:induction false} ReadPath(path: string, query: string)
    requires Lacks(path, '?') && Lacks(path, '#') && Lacks(query, '#')
    ensures PathAndQuery(path + QueryText(query)) == (path, query)
  {
    var q := QueryText(query);
    var tail := path + q;
    assert Lacks(q, '#') && (q == "" || q[0] == '?');
    BothLack(path, q, '#');
    assert q != "" ==> q[1..] == query;
    FindIs(tail, {'#'}, |tail|);
    assert tail[..|tail|] == tail;
    FindAcross(path, q, {'?'}, |path|);
    assert path[..|path|] == path && path[|path|..] == "";
    assert q != "" ==> tail[|path| + 1..] == q[1..];
  }

  lemma {:induction false} SchemeLacks(scheme: string, c: char)
    requires (scheme == "" || ValidScheme(scheme)) && c <= ' '
    ensures Lacks(scheme, c) && (scheme == "" || scheme[0] > ' ')
  {
  }

  lemma {:induction false} TextLacks(scheme: string, m: string, query: string, c: char)
    requires Lacks(scheme, c) && Lacks(m, c) && Lacks(query, c) && c <= ' '
    ensures Lacks(Text(scheme, m, query), c)
  {
    assert Lacks("://", c) && Lacks("?", c) && Lacks("", c);
    hide Lacks;
    BothLack("?", query, c);
    BothLack(scheme, "://", c);
    BothLack(scheme + "://", m, c);
    BothLack(scheme + "://" + m, QueryText(query), c);
  }

  lemma {:induction false} TidyText(scheme: string, m: string, query: string)
    requires scheme == "" || ValidScheme(scheme)
    requires Tidy(m) && Tidy(query)
    ensures Clean(Text(scheme, m, query)) == Text(scheme, m, query)
  {
    hide Clean, Lacks, ValidScheme;
    SchemeLacks(scheme, '\t');
    SchemeLacks(scheme, '\r');
    SchemeLacks(scheme, '\n');
    TextLacks(scheme, m, query, '\t');
    TextLacks(scheme, m, query, '\r');
    TextLacks(scheme, m, query, '\n');
    TextStarts(scheme, m, query);
  }

  lemma {:induction false} TextStarts(scheme: string, m: string, query: string)
    requires scheme == "" || scheme[0] > ' '
    ensures Text(scheme, m, query) != "" && Text(scheme, m, query)[0] > ' '
  {
    assert Text(scheme, m, query)[0] == if scheme == "" then ':' else scheme[0];
  }

  lemma {:induction false} ReadCuts(scheme: string, m: string, query: string)
    requires ValidScheme(scheme) && Lower(scheme) == scheme
    requires Lacks(m, '?') && Lacks(m, '#') && Lacks(query, '#')
    ensures var j := Find(m, {'/'}); Cuts(Text(scheme, m, query)) == Url(scheme, m[..j], m[j..], query)
  {
    hide SchemeOf, Authority, PathAndQuery, QueryText, Find, ValidScheme, Lower;
    var j := Find(m, {'/'});
    assert Text(scheme, m, query) == scheme + [':'] + ("//" + m + QueryText(query));
    ReadScheme(scheme, "//" + m + QueryText(query));
    ReadMiddle(m, query);
    assert forall i :: 0 <= i < |m[j..]| ==> m[j..][i] == m[j + i];
    ReadPath(m[j..], query);
  }

  /** The parser reads a rendered URL back up to where it takes host and path apart. */
  lemma {:induction false} ReadText(scheme: string, m: string, query: string)
    requires ValidScheme(scheme) && Lower(scheme) == scheme
    requires Lacks(m, '?') && Lacks(m, '#') && Lacks(query, '#') && Tidy(m) && Tidy(query)
    ensures var j := Find(m, {'/'}); SplitUrl(Text(scheme, m, query)) == Url(scheme, m[..j], m[j..], query)
  {
    hide Cuts, Text, Find, Clean, Lacks, Tidy;
    TidyText(scheme, m, query);
    ReadCuts(scheme, m, query);
  }

  // ----- normalising twice -----

  /** Parameters would be split off this path. */
  predicate HasParams(params: bool, path: string) {
    params && ';' in LastSegment(path)
  }

  lemma {:induction false} CutIff(params: bool, path: string)
    ensures |CutParams(params, path)| <= |path|
    ensures CutParams(params, path) == path <==> !HasParams(params, path)
    ensures CutParams(params, path) != path ==> |CutParams(params, path)| < |path|
    ensures path != "" && path[0] == '/' ==> CutParams(params, path) != "" && CutParams(params, path)[0] == '/'
  {
    var seg := LastSegment(path);
    var f := Find(seg, {';'});
    if f < |seg| {
      assert seg[f] == ';';
    }
  }

  /** A path that is already stripped stays the same exactly if it has no parameters. */
  lemma {:induction false} PathKeptIff(params: bool, path: string)
    requires path != "" && path[0] == '/' && NormalPath(path) == path
    ensures NormalPath(CutParams(params, path)) == path <==> !HasParams(params, path)
  {
    hide TakesParams, CutParams, HasParams;
    CutIff(params, path);
    var c := CutParams(params, path);
    if c != path {
      assert |NormalPath(c)| <= |c|;
    }
  }

  /** What a rendered URL looks like after one more normalisation. */
  lemma {:induction false} NormalizeText(scheme: string, m: string, query: string)
    requires ValidScheme(scheme) && Lower(scheme) == scheme
    requires Lacks(m, '?') && Lacks(m, '#') && Lacks(query, '#') && NormalQuery(query) == query
    requires Tidy(m) && Tidy(query)
    ensures var j := Find(m, {'/'});
            NormalizeString(Text(scheme, m, query))
              == Text(scheme, StripPort(scheme, Lower(m[..j])) + NormalPath(CutParams(TakesParams(scheme), m[j..])), query)
  {
    hide SplitUrl, Lower, StripPort, NormalPath, NormalQuery, TakesParams, CutParams, Lacks, ValidScheme, Find;
    ReadText(scheme, m, query);
    RenderIsText(Parse(Text(scheme, m, query)));
  }

  lemma {:induction false} TextInjective(scheme: string, m: string, m': string, query: string)
    ensures Text(scheme, m, query) == Text(scheme, m', query) <==> m == m'
  {
    var a, b, q := Text(scheme, m, query), Text(scheme, m', query), QueryText(query);
    var k := |scheme| + 3;
    if a == b {
      assert m == a[k..|a| - |q|] && m' == b[k..|b| - |q|];
    }
  }

  /** Host and path are kept exactly if each of them is. */
  lemma {:induction false} MiddleKeptIff(m: string, host: string, path: string)
    requires Lacks(host, '/') && path != "" && path[0] == '/'
    ensures var j := Find(m, {'/'}); host + path == m <==> j < |m| && host == m[..j] && path == m[j..]
  {
    var j := Find(m, {'/'});
    if host + path == m {
      assert m[|host|] == '/';
      FindIs(m, {'/'}, |host|);
      assert m[..j] == host && m[j..] == path;
    }
    if j < |m| && host == m[..j] && path == m[j..] {
      assert m == m[..j] + m[j..];
    }
  }

  lemma {:induction false} TextFixedIff(scheme: string, m: string, query: string)
    requires ValidScheme(scheme) && Lower(scheme) == scheme
    requires Lacks(m, '?') && Lacks(m, '#') && Lacks(query, '#') && NormalQuery(query) == query
    requires Tidy(m) && Tidy(query)
    ensures var j := Find(m, {'/'});
            NormalizeString(Text(scheme, m, query)) == Text(scheme, m, query) <==>
              && j < |m| && StripPort(scheme, Lower(m[..j])) == m[..j]
              && NormalPath(CutParams(TakesParams(scheme), m[j..])) == m[j..]
  {
    assert LowerChar('/') == '/';
    hide *;
    var j := Find(m, {'/'});
    FirstSlash(m);
    LacksLower(m[..j], '/');
    HostLacks(scheme, Lower(m[..j]), '/');
    var host, path := StripPort(scheme, Lower(m[..j])), NormalPath(CutParams(TakesParams(scheme), m[j..]));
    NormalizeText(scheme, m, query);
    TextInjective(scheme, host + path, m, query);
    RestRooted(m);
    PathRooted(TakesParams(scheme), m[j..]);
    MiddleKeptIff(m, host, path);
  }

  lemma {:induction false} RestRooted(m: string)
    ensures Rooted(m[Find(m, {'/'})..])
  {
    var j := Find(m, {'/'});
    assert j < |m| ==> m[j..][0] == m[j];
  }

  lemma {:induction false} PathRooted(params: bool, path: string)
    requires Rooted(path)
    ensures NormalPath(CutParams(params, path)) != "" && NormalPath(CutParams(params, path))[0] == '/'
  {
    hide TakesParams, CutParams;
    CutIff(params, path);
  }

  /** What a caller can check of a parsed URL. */
  predicate Stable(u: Url) {
    u.scheme != "" &&
    if Rooted(u.path) then !DoublePort(u) && !HasParams(TakesParams(u.scheme), NormalPath(u.path))
    else
      // The path is taken for host and path when it is read again.
      var p := NormalPath(u.path);
      var j := Find(p, {'/'});
      j < |p| && StripPort(u.scheme, Lower(p[..j])) == p[..j] && !HasParams(TakesParams(u.scheme), p[j..])
  }

  lemma {:induction false} RootedMiddle(u: Url)
    requires Parts(u) && Rooted(u.path)
    ensures var n, m := Normal(u), Middle(u);
            var j := Find(m, {'/'});
            n.path != "" && n.path[0] == '/' && j < |m| && m[..j] == n.netloc && m[j..] == n.path
  {
    NormalParts(u);
    RootedNormal(u.path);
    hide Parts, NormalPath, Normal;
    var n, m := Normal(u), Middle(u);
    assert n.path == NormalPath(u.path) by { NormalPathOf(u); }
    assert m[|n.netloc|] == '/';
    FindIs(m, {'/'}, |n.netloc|);
    assert m[..|n.netloc|] == n.netloc && m[|n.netloc|..] == n.path;
  }

  lemma {:induction false} NormalPathOf(u: Url)
    ensures Normal(u).path == NormalPath(u.path)
  {
  }

  lemma {:induction false} RootedNormal(p: string)
    requires Rooted(p)
    ensures NormalPath(p) != "" && NormalPath(p)[0] == '/'
  {
  }

  lemma {:induction false} HostKeptIff(u: Url)
    requires Lower(u.scheme) == u.scheme
    ensures StripPort(u.scheme, Lower(Normal(u).netloc)) == Normal(u).netloc <==> !DoublePort(u)
  {
    hide Lower, NormalPath, NormalQuery, StripPort, EndsWith;
    LowerIdempotent(u.netloc);
    StripPortLower(u.scheme, Lower(u.netloc));
    StripPortIff(u.scheme, Lower(u.netloc));
    LowerEndsWith(u.netloc, ":80:80");
    LowerEndsWith(u.netloc, ":443:443");
  }

  lemma {:induction false} RootedStable(u: Url)
    requires Parts(u) && u.scheme != "" && Rooted(u.path)
    ensures var m := Middle(u);
            var j := Find(m, {'/'});
            && j < |m|
            && (StripPort(u.scheme, Lower(m[..j])) == m[..j] <==> !DoublePort(u))
            && (NormalPath(CutParams(TakesParams(u.scheme), m[j..])) == m[j..] <==> !HasParams(TakesParams(u.scheme), NormalPath(u.path)))
  {
    hide Lower, NormalQuery, TakesParams, CutParams, HasParams, StripPort, DoublePort, NormalPath, ValidScheme, Lacks, Find;
    hide Middle;
    RootedMiddle(u);
    HostKeptIff(u);
    NormalPathIff(u.path, u.path);
    PathKeptIff(TakesParams(u.scheme), Normal(u).path);
  }

  lemma {:induction false} UnrootedMiddle(u: Url)
    requires Parts(u) && !Rooted(u.path)
    ensures Middle(u) == NormalPath(u.path)
    ensures NormalPath(u.path) != "" && NormalPath(u.path)[|NormalPath(u.path)| - 1] != '/'
  {
    hide Lower, NormalQuery, StripPort, ValidScheme, Lacks, NormalPath;
    NoHost(Lower(u.scheme));
    assert "" + NormalPath(u.path) == NormalPath(u.path);
    StrippedPrefix(u.path);
  }

  lemma {:induction false} UnrootedStable(u: Url)
    requires Parts(u) && u.scheme != "" && !Rooted(u.path)
    ensures var m := Middle(u);
            var j := Find(m, {'/'});
            && m == NormalPath(u.path)
            && (j < |m| ==>
                  (NormalPath(CutParams(TakesParams(u.scheme), m[j..])) == m[j..] <==> !HasParams(TakesParams(u.scheme), m[j..])))
  {
    hide *;
    UnrootedMiddle(u);
    var m := Middle(u);
    var j := Find(m, {'/'});
    if j < |m| {
      SuffixStripped(m, j);
      assert m[j..][0] == m[j];
      PathKeptIff(TakesParams(u.scheme), m[j..]);
    }
  }

  lemma {:induction false} NoHost(scheme: string)
    ensures StripPort(scheme, Lower("")) == ""
  {
  }

  lemma {:induction false} NotAllSlashes(p: string)
    requires !Rooted(p)
    ensures RStripSlashes(p) != "" && NormalPath(p) == RStripSlashes(p)
  {
    if p[|p| - 1] == '/' {
      NotAllSlashes(p[..|p| - 1]);
    }
  }

  lemma {:induction false} SuffixStripped(m: string, j: nat)
    requires j < |m| && m[|m| - 1] != '/'
    ensures NormalPath(m[j..]) == m[j..]
  {
    assert m[j..][|m| - j - 1] == m[|m| - 1];
  }

  lemma {:induction false} SchemedIff(u: Url)
    requires Parts(u) && u.scheme != ""
    ensures NormalizeString(Render(Normal(u))) == Render(Normal(u)) <==> Stable(u)
  {
    hide Lower, StripPort, NormalPath, NormalQuery, TakesParams, CutParams, HasParams, DoublePort, Text, NormalizeString, Render;
    hide Lacks, ValidScheme, Find;
    NormalParts(u);
    NormalQueryIdempotent(u.query);
    RenderIsText(u);
    TextFixedIff(u.scheme, Middle(u), Normal(u).query);
    if Rooted(u.path) {
      RootedStable(u);
    } else {
      UnrootedStable(u);
    }
  }

  // ----- without a scheme -----

  /** A string that is a prefix of itself behind `://` repeats that pattern. */
  lemma {:induction false} Repeating(y: string, i: nat)
    requires y != "" && y <= "://" + y && i < |y|
    ensures y[i] == ':' || y[i] == '/'
  {
    assert y[i] == ("://" + y)[i];
    if i >= 3 {
      Repeating(y, i - 3);
    }
  }

  lemma {:induction false} ReadSchemeless(m: string, query: string)
    requires Lacks(m, '?') && Lacks(m, '#') && Lacks(query, '#') && Tidy(m) && Tidy(query)
    ensures SplitUrl(Text("", m, query)) == Url("", "", "://" + m, query)
  {
    var t := Text("", m, query);
    TidyText("", m, query);
    hide Clean, Tidy;
    assert t == "://" + m + QueryText(query);
    FindIs(t, {':'}, 0);
    assert t[..0] == "";
    assert SchemeOf(t) == ("", t) && Authority(t) == ("", t);
    hide PathAndQuery, QueryText, SchemeOf, Authority;
    ReadPath("://" + m, query);
  }

  lemma {:induction false} StrippedPrefix(p: string)
    requires p != "" && p[0] != '/'
    ensures NormalPath(p) <= p && NormalPath(p) != "" && NormalPath(p)[|NormalPath(p)| - 1] != '/'
    ensures p[|p| - 1] != '/' ==> NormalPath(p) == p
  {
    NotAllSlashes(p);
  }

  lemma {:induction false} CutSchemeless(params: bool, p: string)
    requires |p| >= 3 && p[0] == ':' && p[2] == '/'
    ensures var c := CutParams(params, p);
            c <= p && c != "" && c[0] == ':' && (Lacks(p, ';') ==> c == p)
  {
    assert LastSlash(p) >= 2;
    if Lacks(p, ';') {
      var seg := LastSegment(p);
      assert forall i :: 0 <= i < |seg| ==> seg[i] == p[LastSlash(p) + 1 + i];
      assert ';' !in seg;
      CutIff(params, p);
    }
  }

  /** A path that is read behind `://` never normalises to what stands there. */
  lemma {:induction false} SchemelessPath(params: bool, m: string)
    ensures NormalPath(CutParams(params, "://" + m)) != m
  {
    hide CutParams, NormalPath;
    var p := "://" + m;
    CutSchemeless(params, p);
    StrippedPrefix(CutParams(params, p));
    if NormalPath(CutParams(params, p)) == m {
      OnlyPattern(m);
      StrippedPrefix(p);
    }
  }

  lemma {:induction false} OnlyPattern(m: string)
    requires m != "" && m <= "://" + m
    ensures Lacks("://" + m, ';')
  {
    forall i | 0 <= i < |m| ensures m[i] != ';' {
      Repeating(m, i);
    }
  }

  lemma {:induction false} SchemelessNever(u: Url)
    requires Parts(u) && u.scheme == ""
    ensures NormalizeString(Render(Normal(u))) != Render(Normal(u))
  {
    hide Lower, NormalPath, NormalQuery, TakesParams, CutParams, Text, SplitUrl, Lacks;
    var m, q := Middle(u), Normal(u).query;
    NormalParts(u);
    NormalQueryIdempotent(u.query);
    RenderIsText(u);
    ReadSchemeless(m, q);
    var v := Parse(Text("", m, q));
    NoHost("");
    RenderIsText(v);
    assert Middle(v) == NormalPath(CutParams(TakesParams(""), "://" + m)) by { assert "" + Normal(v).path == Normal(v).path; }
    SchemelessPath(TakesParams(""), m);
    TextInjective("", Middle(v), m, q);
    assert Normal(v).scheme == "" by { assert Lower("") == ""; EmptyLower(); }
  }

  lemma {:induction false} EmptyLower()
    ensures Lower("") == ""
  {
  }

  /**
   For every string: normalising it twice is normalising it once exactly if it has a scheme,
   its host does not end in the default port twice, and stripping the trailing slashes of the
   path does not bring parameters to its end (with the corresponding condition on paths that
   do not start with a slash).
   */
  lemma {:induction false} NormalizeIdempotentIff(s: string)
    ensures NormalizeString(NormalizeString(s)) == NormalizeString(s) <==> Stable(Parse(s))
  {
    hide Parse, Normal, Render, Stable;
    ParseParts(s);
    var u := Parse(s);
    assert NormalizeString(s) == Render(Normal(u));
    if u.scheme == "" {
      SchemelessNever(u);
      assert !Stable(u) by { SchemelessUnstable(u); }
    } else {
      SchemedIff(u);
    }
  }

  lemma {:induction false} SchemelessUnstable(u: Url)
    requires u.scheme == ""
    ensures !Stable(u)
  {
  }

  /** A rendered URL determines its scheme, its host and path taken together, and its query. */
  lemma {:induction false} TextParts(scheme: string, m: string, query: string, scheme': string, m': string, query': string)
    requires ':' !in scheme && ':' !in scheme' && '?' !in m && '?' !in m'
    requires Text(scheme, m, query) == Text(scheme', m', query')
    ensures scheme == scheme' && m == m' && query == query'
  {
    hide Text, QueryText;
    var x, y := m + QueryText(query), m' + QueryText(query');
    TextCut(scheme, m, query);
    TextCut(scheme', m', query');
    CutUnique(scheme, "//" + x, scheme', "//" + y, ':');
    assert ("//" + x)[2..] == x && ("//" + y)[2..] == y;
    MiddleCut(m, query, m', query');
  }

  lemma {:induction false} TextCut(scheme: string, m: string, query: string)
    ensures Text(scheme, m, query) == scheme + [':'] + ("//" + (m + QueryText(query)))
  {
    hide QueryText;
  }

  lemma {:induction false} MiddleCut(m: string, query: string, m': string, query': string)
    requires '?' !in m && '?' !in m' && m + QueryText(query) == m' + QueryText(query')
    ensures m == m' && query == query'
  {
    QueryMark(m, query);
    QueryMark(m', query');
    if query != "" && query' != "" {
      CutUnique(m, query, m', query', '?');
    }
  }

  lemma {:induction false} QueryMark(m: string, query: string)
    requires '?' !in m
    ensures query == "" ==> m + QueryText(query) == m && '?' !in m + QueryText(query)
    ensures query != "" ==> m + QueryText(query) == m + ['?'] + query && '?' in m + QueryText(query)
  {
    if query != "" {
      assert (m + ['?'] + query)[|m|] == '?';
    }
  }

  lemma {:induction false} SchemeHasNoColon(u: Url)
    requires Parts(u)
    ensures ':' !in u.scheme
  {
  }

  lemma {:induction false} LacksIn(s: string, c: char)
    requires Lacks(s, c)
    ensures c !in s
  {
  }

  /**
   Which strings the normal form identifies, for every two: those with the same scheme, the
   same host (up to case and the default port) followed by the same path (up to trailing
   slashes), and the same multiset of parameters.
   */
  lemma {:induction false} SameNormalStringIff(s: string, t: string)
    ensures var u, v := Parse(s), Parse(t);
            NormalizeString(s) == NormalizeString(t) <==>
              && u.scheme == v.scheme
              && Host(u) + NormalPath(u.path) == Host(v) + NormalPath(v.path)
              && Params(u.query) == Params(v.query)
  {
    hide Parse, UrlNormal.Params, Parts, Text, NormalPath, NormalQuery, StripPort, Lower, Lacks;
    var u, v := Parse(s), Parse(t);
    ParseParts(s);
    ParseParts(t);
    NormalParts(u);
    NormalParts(v);
    SchemeHasNoColon(u);
    SchemeHasNoColon(v);
    LacksIn(Middle(u), '?');
    LacksIn(Middle(v), '?');
    RenderIsText(u);
    RenderIsText(v);
    NormalQueryIff(u.query, v.query);
    if NormalizeString(s) == NormalizeString(t) {
      TextParts(u.scheme, Middle(u), Normal(u).query, v.scheme, Middle(v), Normal(v).query);
    }
  }

  /** If both paths are empty or start with a slash, host and path agree one by one. */
  lemma {:induction false} RootedSameNormalStringIff(s: string, t: string)
    requires Rooted(Parse(s).path) && Rooted(Parse(t).path)
    ensures var u, v := Parse(s), Parse(t);
            NormalizeString(s) == NormalizeString(t) <==>
              && u.scheme == v.scheme && Host(u) == Host(v)
              && RStripSlashes(u.path) == RStripSlashes(v.path) && Params(u.query) == Params(v.query)
  {
    hide Parse, Normal, Render, RStripSlashes, UrlNormal.Params, Host;
    ParseParts(s);
    ParseParts(t);
    WellFormedParts(Parse(s));
    WellFormedParts(Parse(t));
    SameStringIff(Parse(s), Parse(t));
    SameNormalFormIff(Parse(s), Parse(t));
  }

  lemma {:induction false} WellFormedParts(u: Url)
    requires Parts(u) && Rooted(u.path)
    ensures WellFormed(u) && Lower(u.scheme) == u.scheme
  {
    EmptyLower();
  }

  // ----- the two ways to fail, with a scheme and a host -----

  lemma {:induction false} HttpTakesParams()
    ensures TakesParams("http")
  {
  }

  /** How a URL with scheme `http` and no query is parsed. */
  lemma {:induction false} ParseHttp(host: string, path: string)
    requires Lacks(host, '/') && Lacks(host, '?') && Lacks(host, '#')
    requires path != "" && path[0] == '/' && Lacks(path, '?') && Lacks(path, '#')
    requires Tidy(host) && Tidy(path)
    ensures Parse("http://" + host + path) == Url("http", host, CutParams(true, path), "")
  {
    hide SplitUrl, Lower, TakesParams, CutParams;
    HttpIsScheme();
    HttpTakesParams();
    EmptyLacks('#');
    BothLack(host, path, '?');
    BothLack(host, path, '#');
    BothLack(host, path, '\t');
    BothLack(host, path, '\r');
    BothLack(host, path, '\n');
    var m := host + path;
    assert Text("http", m, "") == "http://" + host + path;
    FindAcross(host, path, {'/'}, |host|);
    assert host[..|host|] == host && host[|host|..] == "" && "" + path == path;
    hide Text, Lacks, Find, ValidScheme;
    ReadText("http", m, "");
  }

  /** The default port twice. */
  lemma {:induction false} DoublePortMoves()
    ensures NormalizeString(NormalizeString("http://h:80:80/")) != NormalizeString("http://h:80:80/")
  {
    hide *;
    var s, host := "http://h:80:80/", "h:80:80";
    assert s == "http://" + host + "/";
    PortHost();
    SlashStays();
    HttpIsScheme();
    ParseHttp(host, "/");
    NormalizeIdempotentIff(s);
    DoublePortUnstable(Parse(s));
  }

  lemma {:induction false} PortHost()
    ensures var host := "h:80:80"; EndsWith(host, ":80:80") && Lacks(host, '/') && Lacks(host, '?') && Lacks(host, '#')
    ensures Lacks("/", '?') && Lacks("/", '#') && Rooted("/") && Tidy("h:80:80") && Tidy("/")
  {
    assert "h:80:80"[1..] == ":80:80";
  }

  lemma {:induction false} SlashStays()
    ensures CutParams(true, "/") == "/"
  {
    CutIff(true, "/");
    assert LastSegment("/") == "";
  }

  lemma {:induction false} HttpIsScheme()
    ensures ValidScheme("http") && Lower("http") == "http"
  {
    assert Lower("p") == "p" && Lower("tp") == "tp" && Lower("ttp") == "ttp";
  }

  lemma {:induction false} DoublePortUnstable(u: Url)
    requires u.scheme == "http" && Lower("http") == "http" && EndsWith(u.netloc, ":80:80") && Rooted(u.path)
    ensures !Stable(u)
  {
  }

  /** Parameters behind the last but one slash: the page `/a;b/` becomes `/a;b`, and that becomes `/a`. */
  lemma {:induction false} TrailingSlashMoves()
    ensures NormalizeString(NormalizeString("http://h/a;b/")) != NormalizeString("http://h/a;b/")
  {
    hide *;
    var s, path := "http://h/a;b/", "/a;b/";
    assert s == "http://" + "h" + path;
    SlashPath();
    HttpTakesParams();
    ParseHttp("h", path);
    NormalizeIdempotentIff(s);
    ParamsUnstable(Parse(s));
  }

  lemma {:induction false} SlashPath()
    ensures NormalPath("/a;b/") == "/a;b" && HasParams(true, "/a;b") && CutParams(true, "/a;b/") == "/a;b/"
    ensures Lacks("h", '/') && Lacks("h", '?') && Lacks("h", '#')
    ensures Lacks("/a;b/", '?') && Lacks("/a;b/", '#') && Rooted("/a;b/") && Tidy("h") && Tidy("/a;b/")
  {
    var p := "/a;b/";
    CutIff(true, p);
    assert LastSegment(p) == "";
    assert p[..4] == "/a;b";
    var q := "/a;b";
    assert q[0] == '/' && q[1] == 'a' && q[2] == ';' && q[3] == 'b';
    assert LastSlash(q) == 0;
    assert LastSegment(q) == "a;b" && "a;b"[1] == ';';
  }

  lemma {:induction false} ParamsUnstable(u: Url)
    requires Rooted(u.path) && HasParams(TakesParams(u.scheme), NormalPath(u.path))
    ensures !Stable(u)
  {
  }

  // ----- schemes and domains -----

  const DIGITS := "0123456789"

  lemma {:induction false} DigitIff(c: char)
    ensures c in DIGITS <==> '0' <= c <= '9'
  {
    if '0' <= c <= '9' {
      assert DIGITS[c as int - 48] == c;
    }
  }

  /** A scheme is a letter, then letters, digits and the three signs. */
  lemma {:induction false} SchemeIs(s: string)
    ensures ValidScheme(s) <==>
              && s != "" && (s[0] in UPPER || s[0] in LOWER)
              && forall i :: 0 <= i < |s| ==> s[i] in UPPER || s[i] in LOWER || s[i] in DIGITS || s[i] in "+-."
  {
    forall i | 0 <= i < |s|
      ensures SchemeChar(s[i]) <==> s[i] in UPPER || s[i] in LOWER || s[i] in DIGITS || s[i] in "+-."
      ensures Alpha(s[i]) <==> s[i] in UPPER || s[i] in LOWER
    {
      SchemeCharIs(s[i]);
    }
    hide SchemeChar, Alpha;
  }

  lemma {:induction false} SchemeCharIs(c: char)
    ensures SchemeChar(c) <==> c in UPPER || c in LOWER || c in DIGITS || c in "+-."
    ensures Alpha(c) <==> c in UPPER || c in LOWER
  {
    CapitalIff(c);
    SmallIff(c);
    DigitIff(c);
    assert c in "+-." <==> c == '+' || c == '-' || c == '.';
  }

  /** The domain of a normalised URL, under which `add_url` files it, is the host of the URL that was given. */
  lemma {:induction false} DomainOfNormal(s: string)
    requires Parse(s).scheme != "" && Rooted(Parse(s).path)
    ensures DomainOf(NormalizeString(s)) == Host(Parse(s))
  {
    var u := Parse(s);
    ParseParts(s);
    NormalParts(u);
    RootedMiddle(u);
    RenderIsText(u);
    NormalHost(u);
    hide *;
    SchemeOfParts(u);
    ReadText(u.scheme, Middle(u), Normal(u).query);
    NormalizeIs(s);
    DomainIs(NormalizeString(s));
  }

  lemma {:induction false} SchemeOfParts(u: Url)
    requires Parts(u) && u.scheme != ""
    ensures ValidScheme(u.scheme) && Lower(u.scheme) == u.scheme
  {
  }

  lemma {:induction false} NormalizeIs(s: string)
    ensures NormalizeString(s) == Render(Normal(Parse(s)))
  {
  }

  lemma {:induction false} DomainIs(s: string)
    ensures DomainOf(s) == Lower(SplitUrl(s).netloc)
  {
  }

  lemma {:induction false} NormalHost(u: Url)
    ensures Normal(u).netloc == Host(u) && Lower(Host(u)) == Host(u)
  {
    hide Lower, StripPort, NormalPath, NormalQuery;
    LowerIdempotent(u.netloc);
    StripPortLower(Lower(u.scheme), Lower(u.netloc));
  }
}
