/**
 * URL handling of request.py: `normalize_url`, `is_valid_url`, and the parts of Python's
 * `urllib.parse` they rely on (`urlparse`, `urlunparse`, `str.replace("///", "//")`) and the
 * posix `os.path.join` used to build endpoint URLs.
 *
 * The parser follows CPython's `urlsplit`/`urlparse`: a scheme is the text before the first
 * ':' when it starts with an ASCII letter and consists of scheme characters (it is
 * lower-cased); a netloc follows a leading "//" up to the first '/', '?' or '#'; then the
 * fragment ('#') and the query ('?') are split off, and for schemes that use parameters the
 * ";params" part of the last path segment. The unparser follows the `urlunsplit` that
 * prefixes "//" whenever the scheme uses a netloc, which is what turns "api.example.com"
 * with scheme "https" into "https:///api.example.com", the artefact the `///` replace undoes.
 */
module Url {

  datatype ParsedUrl = ParsedUrl(
    scheme: string,
    netloc: string,
    path: string,
    params: string,
    query: string,
    fragment: string)

  /** `urllib.parse.uses_netloc` */
  const UsesNetloc: set<string> := {
    "", "ftp", "http", "gopher", "nntp", "telnet", "imap", "wais", "file", "mms", "https",
    "shttp", "snews", "prospero", "rtsp", "rtspu", "rsync", "svn", "svn+ssh", "sftp", "nfs",
    "git", "git+ssh", "ws", "wss"}

  /** `urllib.parse.uses_params` */
  const UsesParams: set<string> := {
    "", "ftp", "hdl", "prospero", "http", "imap", "https", "shttp", "rtsp", "rtspu", "sip",
    "sips", "mms", "sftp", "tel"}

  predicate IsAsciiLetter(c: char) {
    'a' <= c <= 'z' || 'A' <= c <= 'Z'
  }

  predicate IsSchemeChar(c: char) {
    IsAsciiLetter(c) || '0' <= c <= '9' || c == '+' || c == '-' || c == '.'
  }

  predicate AllSchemeChars(s: string) {
    forall k :: 0 <= k < |s| ==> IsSchemeChar(s[k])
  }

  /** What the parser can return as a scheme: non-empty, a letter first, lower case. */
  predicate IsSchemeName(s: string) {
    && s != []
    && IsAsciiLetter(s[0])
    && AllSchemeChars(s)
    && forall k :: 0 <= k < |s| ==> !('A' <= s[k] <= 'Z')
  }

  function LowerChar(c: char): char {
    if 'A' <= c <= 'Z' then (c as int + 32) as char else c
  }

  /** `str.lower()` restricted to ASCII, which covers every scheme character. */
  function Lower(s: string): (r: string)
    ensures |r| == |s|
    ensures forall k :: 0 <= k < |s| ==> r[k] == LowerChar(s[k])
  {
    seq(|s|, k requires 0 <= k < |s| => LowerChar(s[k]))
  }

  /** `s.find(c)`: the first index of `c`, or -1. */
  function Find(s: string, c: char): (i: int)
    ensures -1 <= i < |s|
    ensures i == -1 <==> c !in s
    ensures 0 <= i ==> s[i] == c && c !in s[..i]
  {
    if s == [] then -1
    else if s[0] == c then 0
    else
      var k := Find(s[1..], c);
      if k < 0 then -1
      else
        assert s[..k + 1] == [s[0]] + s[1..][..k];
        k + 1
  }

  /** `s.rfind(c)`: the last index of `c`, or -1. */
  function RFind(s: string, c: char): (i: int)
    ensures -1 <= i < |s|
    ensures i == -1 <==> c !in s
    ensures 0 <= i ==> s[i] == c && c !in s[i + 1..]
  {
    if s == [] then -1
    else if s[|s| - 1] == c then |s| - 1
    else
      var init := s[..|s| - 1];
      var k := RFind(init, c);
      if k < 0 then
        assert s == init + [s[|s| - 1]];
        -1
      else
        assert s[k + 1..] == init[k + 1..] + [s[|s| - 1]];
        k
  }

  /** `s.find(c, start)` */
  function FindFrom(s: string, c: char, start: nat): (i: int)
    requires start <= |s|
    ensures i == -1 <==> c !in s[start..]
    ensures 0 <= i ==> start <= i < |s| && s[i] == c && c !in s[start..i]
  {
    var k := Find(s[start..], c);
    if k < 0 then -1
    else
      assert s[start..][..k] == s[start..start + k];
      start + k
  }

  /** The first index holding one of `stops`, or `|s|`: the `delim` of `_splitnetloc`. */
  function FirstOf(s: string, stops: set<char>): (i: nat)
    ensures i <= |s|
    ensures forall k :: 0 <= k < i ==> s[k] !in stops
    ensures i < |s| ==> s[i] in stops
  {
    if s == [] then 0
    else if s[0] in stops then 0
    else 1 + FirstOf(s[1..], stops)
  }

  predicate StartsWithDoubleSlash(s: string) {
    |s| >= 2 && s[0] == '/' && s[1] == '/'
  }

  /** `s.split(c, 1)` when `c` occurs in `s`. */
  function SplitOnce(s: string, c: char): (r: (string, string))
    requires c in s
    ensures s == r.0 + [c] + r.1
    ensures c !in r.0
  {
    var i := Find(s, c);
    assert s == s[..i] + [c] + s[i + 1..];
    (s[..i], s[i + 1..])
  }

  /** The scheme test at the start of `urlsplit`: (scheme, rest). */
  function SplitScheme(url: string): (string, string) {
    var i := Find(url, ':');
    if i > 0 && IsAsciiLetter(url[0]) && AllSchemeChars(url[..i]) then (Lower(url[..i]), url[i + 1..])
    else ("", url)
  }

  /** `_splitnetloc(url, 2)`: (netloc, rest). */
  function SplitNetloc(url: string): (string, string)
    requires StartsWithDoubleSlash(url)
  {
    var rest := url[2..];
    var delim := FirstOf(rest, {'/', '?', '#'});
    (rest[..delim], rest[delim..])
  }

  /** `_splitparams(url)`: the ";params" of the last path segment. */
  function SplitParams(url: string): (string, string)
    requires ';' in url
  {
    if '/' in url then
      var i := FindFrom(url, ';', RFind(url, '/'));
      if i < 0 then (url, "") else (url[..i], url[i + 1..])
    else
      var i := Find(url, ';');
      (url[..i], url[i + 1..])
  }

  /** `urlsplit` after the scheme test: netloc, then fragment, then query. */
  function SplitAfterScheme(scheme: string, rest: string): (u: ParsedUrl)
    ensures u.scheme == scheme && u.params == ""
  {
    var (netloc, afterNetloc) :=
      if StartsWithDoubleSlash(rest) then SplitNetloc(rest) else ("", rest);
    var (beforeFragment, fragment) :=
      if '#' in afterNetloc then SplitOnce(afterNetloc, '#') else (afterNetloc, "");
    var (path, query) :=
      if '?' in beforeFragment then SplitOnce(beforeFragment, '?') else (beforeFragment, "");
    ParsedUrl(scheme, netloc, path, "", query, fragment)
  }

  /** `urlsplit(url)`, with params left empty. */
  function Split(url: string): ParsedUrl {
    var (scheme, rest) := SplitScheme(url);
    SplitAfterScheme(scheme, rest)
  }

  /** The step of `urlparse` that splits ";params" off the path. */
  function SplitPathParams(u: ParsedUrl): (p: ParsedUrl)
    ensures p.scheme == u.scheme && p.netloc == u.netloc
    ensures p.query == u.query && p.fragment == u.fragment
    ensures ';' !in u.path ==> p == u
  {
    if u.scheme in UsesParams && ';' in u.path then
      var (path, params) := SplitParams(u.path);
      u.(path := path, params := params)
    else u
  }

  /** `urlparse(url)` */
  function Parse(url: string): ParsedUrl {
    SplitPathParams(Split(url))
  }

  /** The condition under which `urlunsplit` writes "//" + netloc. */
  predicate WritesAuthority(scheme: string, netloc: string, url: string) {
    netloc != "" || (scheme != "" && scheme in UsesNetloc && !StartsWithDoubleSlash(url))
  }

  function RootedPath(url: string): string {
    if url != "" && url[0] != '/' then "/" + url else url
  }

  function AuthorityAndPath(scheme: string, netloc: string, url: string): string {
    if WritesAuthority(scheme, netloc, url) then "//" + netloc + RootedPath(url) else url
  }

  function AddQueryAndFragment(s: string, query: string, fragment: string): string {
    var withQuery := if query != "" then s + "?" + query else s;
    if fragment != "" then withQuery + "#" + fragment else withQuery
  }

  /** `urlunsplit((scheme, netloc, url, query, fragment))` */
  function Unsplit(scheme: string, netloc: string, url: string, query: string, fragment: string): string {
    var rest := AuthorityAndPath(scheme, netloc, url);
    AddQueryAndFragment(if scheme != "" then scheme + ":" + rest else rest, query, fragment)
  }

  /** `urlunparse(p)` */
  function Unparse(p: ParsedUrl): string {
    var path := if p.params != "" then p.path + ";" + p.params else p.path;
    Unsplit(p.scheme, p.netloc, path, p.query, p.fragment)
  }

  /** Three slashes in a row start at `i`. */
  predicate TripleAt(s: string, i: int)
    requires 0 <= i <= |s| - 3
  {
    s[i] == '/' && s[i + 1] == '/' && s[i + 2] == '/'
  }

  predicate HasTriple(s: string) {
    exists i :: 0 <= i <= |s| - 3 && TripleAt(s, i)
  }

  /** `s.replace("///", "//")`: non-overlapping occurrences, scanned left to right. */
  function ReplaceTriple(s: string): string
    decreases |s|
  {
    if |s| >= 3 && s[0] == '/' && s[1] == '/' && s[2] == '/' then "//" + ReplaceTriple(s[3..])
    else if s == [] then []
    else [s[0]] + ReplaceTriple(s[1..])
  }

  /** The scheme `normalize_url` gives its result: the parsed one, or "https" if none. */
  function EffectiveScheme(url: string): string {
    var scheme := Parse(url).scheme;
    if scheme == "" then "https" else scheme
  }

  /** `normalize_url(url)` (request.py:45-49). */
  function NormalizeUrl(url: string): string {
    ReplaceTriple(Unparse(WithDefaultScheme(Parse(url))))
  }

  /** `parsed_url._replace(scheme="https")` when the scheme is empty. */
  function WithDefaultScheme(p: ParsedUrl): ParsedUrl {
    if p.scheme == "" then p.(scheme := "https") else p
  }

  /** `is_valid_url(url)` (request.py:26-27). */
  function IsValidUrl(url: string): bool {
    var p := Parse(url);
    p.scheme != "" && p.netloc != ""
  }

  /**
   * Posix `os.path.join(a, b)` for two components: an absolute `b` replaces `a`; otherwise
   * the result is `a`, then at most one inserted "/", then `b`, so that a non-empty `a` is
   * separated from `b` by exactly one "/" of its own or inserted.
   */
  function JoinPath(a: string, b: string): (r: string)
    ensures b != [] && b[0] == '/' ==> r == b
    ensures (b == [] || b[0] != '/') ==>
      && |a| + |b| <= |r| <= |a| + |b| + 1
      && r[..|a|] == a && r[|r| - |b|..] == b
      && (|r| == |a| + |b| + 1 <==> a != [] && a[|a| - 1] != '/')
      && (|r| == |a| + |b| + 1 ==> r[|a|] == '/')
      && (a != [] ==> r[|r| - |b| - 1] == '/')
  {
    if b != [] && b[0] == '/' then b
    else if a == [] || a[|a| - 1] == '/' then a + b
    else a + "/" + b
  }

  // ---------------------------------------------------------------------------------------
  // Lemmas about the string helpers

  lemma {:induction false} ReplaceTripleKeepsSlashFreePrefix(a: string, b: string)
    requires '/' !in a
    ensures ReplaceTriple(a + b) == a + ReplaceTriple(b)
    decreases |a|
  {
    if a != [] {
      var s := a + b;
      assert a[0] in a;
      assert s[0] == a[0] && s[0] != '/';
      assert s[1..] == a[1..] + b;
      assert ReplaceTriple(s) == [s[0]] + ReplaceTriple(s[1..]);
      ReplaceTripleKeepsSlashFreePrefix(a[1..], b);
      assert a == [a[0]] + a[1..];
    } else {
      assert a + b == b;
    }
  }

  lemma {:induction false} ReplaceTripleWithoutTriple(s: string)
    requires !HasTriple(s)
    ensures ReplaceTriple(s) == s
    decreases |s|
  {
    if s != [] {
      if |s| >= 3 {
        assert !TripleAt(s, 0);
      }
      assert s == [s[0]] + s[1..];
      assert !HasTriple(s[1..]) by {
        forall i | 0 <= i <= |s[1..]| - 3 ensures !TripleAt(s[1..], i) {
          assert !TripleAt(s, i + 1);
        }
      }
      ReplaceTripleWithoutTriple(s[1..]);
    }
  }

  /** A string with no two adjacent slashes holds no "///". */
  lemma NoDoubleSlashHasNoTriple(s: string)
    requires forall i :: 0 <= i < |s| - 1 ==> s[i] != '/' || s[i + 1] != '/'
    ensures !HasTriple(s)
  {
    forall i | 0 <= i <= |s| - 3 ensures !TripleAt(s, i) {
      assert s[i] != '/' || s[i + 1] != '/';
    }
  }

  lemma SlashFreeHasNoTriple(s: string)
    requires '/' !in s
    ensures !HasTriple(s)
  {
    forall i | 0 <= i <= |s| - 3 ensures !TripleAt(s, i) {
      assert s[i] in s;
    }
  }

  /** "//" followed by a slash-free non-empty authority is left alone by the replace. */
  lemma ReplaceTripleAfterAuthority(netloc: string, rest: string)
    requires netloc != [] && '/' !in netloc
    ensures ReplaceTriple("//" + netloc + rest) == "//" + netloc + ReplaceTriple(rest)
  {
    var s := "//" + netloc + rest;
    assert netloc[0] in netloc;
    assert s[2] == netloc[0];
    assert s[1..][1] == netloc[0];
    assert s[1..] == "/" + netloc + rest;
    assert s[2..] == netloc + rest;
    ReplaceTripleKeepsSlashFreePrefix(netloc, rest);
  }

  lemma FindAfterFreePrefix(a: string, c: char, z: string)
    requires c !in a
    ensures Find(a + [c] + z, c) == |a|
  {
    var s := a + [c] + z;
    assert s[|a|] == c;
    assert s[..|a|] == a;
  }

  lemma LowerMakesSchemeName(s: string)
    requires s != [] && IsAsciiLetter(s[0]) && AllSchemeChars(s)
    ensures IsSchemeName(Lower(s))
  {
  }

  lemma SchemeNameHasNoColonOrSlash(s: string)
    requires IsSchemeName(s)
    ensures ':' !in s && '/' !in s
  {
    forall k | 0 <= k < |s| ensures s[k] != ':' && s[k] != '/' {
      assert IsSchemeChar(s[k]);
    }
  }

  lemma ParsedSchemeIsName(url: string)
    ensures Parse(url).scheme == "" || IsSchemeName(Parse(url).scheme)
  {
    var i := Find(url, ':');
    if i > 0 && IsAsciiLetter(url[0]) && AllSchemeChars(url[..i]) {
      LowerMakesSchemeName(url[..i]);
    }
  }

  /** Parsing `scheme ":" rest` finds exactly `scheme` when it is a scheme name. */
  lemma SplitSchemePrefix(scheme: string, rest: string)
    requires IsSchemeName(scheme)
    ensures SplitScheme(scheme + ":" + rest) == (scheme, rest)
  {
    var url := scheme + ":" + rest;
    SchemeNameHasNoColonOrSlash(scheme);
    FindAfterFreePrefix(scheme, ':', rest);
    assert url[..|scheme|] == scheme;
    assert url[|scheme| + 1..] == rest;
    assert Lower(scheme) == scheme;
  }

  lemma AddQueryAndFragmentPrefix(a: string, b: string, query: string, fragment: string)
    ensures AddQueryAndFragment(a + b, query, fragment) == a + AddQueryAndFragment(b, query, fragment)
  {
  }

  /** The unparsed form of a URL with a scheme starts with that scheme and ':'. */
  lemma UnparseWithScheme(p: ParsedUrl) returns (tail: string)
    requires p.scheme != ""
    ensures Unparse(p) == p.scheme + ":" + tail
  {
    var path := if p.params != "" then p.path + ";" + p.params else p.path;
    var rest := AuthorityAndPath(p.scheme, p.netloc, path);
    AddQueryAndFragmentPrefix(p.scheme + ":", rest, p.query, p.fragment);
    tail := AddQueryAndFragment(rest, p.query, p.fragment);
  }

  // ---------------------------------------------------------------------------------------
  // Properties of normalize_url and is_valid_url

  /**
   * The result of `normalize_url` always parses with a non-empty scheme: the input's own
   * scheme if it had one, "https" otherwise (request.py:46-48).
   */
  lemma NormalizedScheme(url: string)
    ensures EffectiveScheme(url) != ""
    ensures Parse(NormalizeUrl(url)).scheme == EffectiveScheme(url)
  {
    var p := Parse(url);
    ParsedSchemeIsName(url);
    HttpIsSchemeName();
    var q := WithDefaultScheme(p);
    assert q.scheme == EffectiveScheme(url) && IsSchemeName(q.scheme);
    ReparseScheme(q);
    assert NormalizeUrl(url) == ReplaceTriple(Unparse(q));
  }

  lemma ParseScheme(url: string)
    ensures Parse(url).scheme == SplitScheme(url).0
  {
  }

  lemma ReparseScheme(q: ParsedUrl)
    requires IsSchemeName(q.scheme)
    ensures Parse(ReplaceTriple(Unparse(q))).scheme == q.scheme
  {
    var tail := UnparseWithScheme(q);
    SchemeNameHasNoColonOrSlash(q.scheme);
    ReplaceTripleKeepsSlashFreePrefix(q.scheme + ":", tail);
    SplitSchemePrefix(q.scheme, ReplaceTriple(tail));
    ParseScheme(q.scheme + ":" + ReplaceTriple(tail));
  }

  /** How a "//netloc/path" remainder splits: exactly into `netloc` and `path`. */
  lemma SplitPlainAuthority(scheme: string, netloc: string, path: string)
    requires netloc != [] && '/' !in netloc && '?' !in netloc && '#' !in netloc
    requires path == [] || path[0] == '/'
    requires '?' !in path && '#' !in path
    ensures SplitAfterScheme(scheme, "//" + netloc + path) == ParsedUrl(scheme, netloc, path, "", "", "")
  {
    var rest := "//" + netloc + path;
    var afterSlashes := rest[2..];
    assert afterSlashes == netloc + path;
    var delim := FirstOf(afterSlashes, {'/', '?', '#'});
    assert delim == |netloc| by {
      assert forall k :: 0 <= k < |netloc| ==> afterSlashes[k] == netloc[k] && netloc[k] in netloc;
      assert path != [] ==> afterSlashes[|netloc|] == '/';
    }
    assert afterSlashes[..delim] == netloc && afterSlashes[delim..] == path;
    assert SplitNetloc(rest) == (netloc, path);
  }

  /** `urlparse` of `scheme://netloc/path` without query, fragment or parameters. */
  lemma ParsePlainUrl(scheme: string, netloc: string, path: string)
    requires IsSchemeName(scheme)
    requires netloc != [] && '/' !in netloc && '?' !in netloc && '#' !in netloc
    requires path == [] || path[0] == '/'
    requires '?' !in path && '#' !in path && ';' !in path
    ensures Parse(scheme + ":" + ("//" + netloc + path)) == ParsedUrl(scheme, netloc, path, "", "", "")
  {
    var rest := "//" + netloc + path;
    SplitSchemePrefix(scheme, rest);
    SplitPlainAuthority(scheme, netloc, path);
    assert Split(scheme + ":" + rest) == ParsedUrl(scheme, netloc, path, "", "", "");
  }

  /** `urlunparse` writes such a URL back as it was. */
  lemma UnparsePlainUrl(scheme: string, netloc: string, path: string)
    requires scheme != [] && netloc != []
    requires path == [] || path[0] == '/'
    ensures Unparse(ParsedUrl(scheme, netloc, path, "", "", "")) == scheme + ":" + ("//" + netloc + path)
  {
    assert RootedPath(path) == path;
    assert AuthorityAndPath(scheme, netloc, path) == "//" + netloc + path;
  }

  /** The replace step leaves `scheme://netloc/path` alone when the path has no "///". */
  lemma ReplaceTripleKeepsPlainUrl(scheme: string, netloc: string, path: string)
    requires IsSchemeName(scheme)
    requires netloc != [] && '/' !in netloc
    requires !HasTriple(path)
    ensures ReplaceTriple(scheme + ":" + ("//" + netloc + path)) == scheme + ":" + ("//" + netloc + path)
  {
    ReplaceTripleAfterAuthority(netloc, path);
    ReplaceTripleWithoutTriple(path);
    SchemeNameHasNoColonOrSlash(scheme);
    ReplaceTripleKeepsSlashFreePrefix(scheme + ":", "//" + netloc + path);
  }

  /**
   * A URL written `scheme://netloc/path` without query, fragment, parameters or "///" is
   * returned unchanged by `normalize_url`, and it is valid (request.py:39-40, 26-27, 46, 49).
   */
  lemma NormalizeKeepsPlainUrl(scheme: string, netloc: string, path: string)
    requires IsSchemeName(scheme)
    requires netloc != [] && '/' !in netloc && '?' !in netloc && '#' !in netloc
    requires path == [] || path[0] == '/'
    requires '?' !in path && '#' !in path && ';' !in path && !HasTriple(path)
    ensures NormalizeUrl(scheme + "://" + netloc + path) == scheme + "://" + netloc + path
    ensures IsValidUrl(scheme + "://" + netloc + path)
  {
    var url := scheme + ":" + ("//" + netloc + path);
    assert scheme + "://" + netloc + path == url;
    var p := ParsedUrl(scheme, netloc, path, "", "", "");
    ParsePlainUrl(scheme, netloc, path);
    assert Parse(url) == p;
    assert WithDefaultScheme(p) == p;
    UnparsePlainUrl(scheme, netloc, path);
    ReplaceTripleKeepsPlainUrl(scheme, netloc, path);
    assert NormalizeUrl(url) == ReplaceTriple(Unparse(p));
  }

  /**
   * A bare host (optionally with a path, no scheme) gets "https://" in front; the input is
   * not a valid URL and the result is (request.py:42-43, 46-49, 26-27).
   */
  lemma NormalizeAddsHttps(host: string)
    requires host != [] && host[0] != '/'
    requires ':' !in host && '?' !in host && '#' !in host && ';' !in host && !HasTriple(host)
    ensures NormalizeUrl(host) == "https://" + host
    ensures !IsValidUrl(host)
    ensures IsValidUrl(NormalizeUrl(host))
  {
    ParseBareHost(host);
    var p := ParsedUrl("", "", host, "", "", "");
    assert WithDefaultScheme(p) == ParsedUrl("https", "", host, "", "", "");
    UnparseBareHost(host);
    ReplaceTripleFixesBareHost(host);
    assert "https:" + ("//" + host) == "https://" + host;
    HttpsHostIsValid(host);
  }

  /** The replace step turns "https:///host" into "https://host". */
  lemma ReplaceTripleFixesBareHost(host: string)
    requires host != [] && host[0] != '/' && !HasTriple(host)
    ensures ReplaceTriple("https:" + ("///" + host)) == "https:" + ("//" + host)
  {
    ReplaceTripleKeepsSlashFreePrefix("https:", "///" + host);
    assert ("///" + host)[3..] == host;
    ReplaceTripleWithoutTriple(host);
  }

  lemma ParseBareHost(host: string)
    requires host != [] && host[0] != '/'
    requires ':' !in host && '?' !in host && '#' !in host && ';' !in host
    ensures Parse(host) == ParsedUrl("", "", host, "", "", "")
  {
    assert SplitScheme(host) == ("", host);
  }

  lemma UnparseBareHost(host: string)
    requires host != [] && host[0] != '/'
    ensures Unparse(ParsedUrl("https", "", host, "", "", "")) == "https:" + ("///" + host)
  {
    assert "https" in UsesNetloc;
    assert AuthorityAndPath("https", "", host) == "///" + host;
  }

  /** After "//", a host that starts with a character other than '/', '?' or '#' gives a non-empty netloc. */
  lemma AuthorityIsNonEmpty(scheme: string, host: string)
    requires host != [] && host[0] != '/' && host[0] != '?' && host[0] != '#'
    ensures SplitAfterScheme(scheme, "//" + host).netloc != ""
  {
    var rest := "//" + host;
    assert rest[2..] == host;
    assert FirstOf(host, {'/', '?', '#'}) > 0;
    assert SplitNetloc(rest).0 != "";
  }

  lemma HttpsHostIsValid(host: string)
    requires host != [] && host[0] != '/' && host[0] != '?' && host[0] != '#'
    ensures IsValidUrl("https://" + host)
  {
    var rest := "//" + host;
    var url := "https" + ":" + rest;
    assert "https://" + host == url;
    HttpIsSchemeName();
    SplitSchemePrefix("https", rest);
    AuthorityIsNonEmpty("https", host);
    assert Split(url) == SplitAfterScheme("https", rest);
  }

  /** `scheme://host` is a fixed point of `normalize_url`. */
  lemma NormalizeKeepsSchemeAndHost(scheme: string, host: string, url: string)
    requires IsSchemeName(scheme)
    requires host != [] && '/' !in host && '?' !in host && '#' !in host
    requires url == scheme + "://" + host
    ensures NormalizeUrl(url) == url
  {
    assert !HasTriple([]);
    NormalizeKeepsPlainUrl(scheme, host, "");
    assert scheme + "://" + host + "" == url;
  }

  lemma HttpIsSchemeName()
    ensures IsSchemeName("http") && IsSchemeName("https")
  {
  }

  /** The first example of `normalize_url`'s docstring, "http://api.example.com" (request.py:39-40). */
  lemma NormalizeKeepsSchemeExample(scheme: string, host: string)
    requires scheme == "http" && host == "api.example.com"
    ensures NormalizeUrl(scheme + "://" + host) == scheme + "://" + host
  {
    HttpIsSchemeName();
    ExampleHostIsPlain(host);
    NormalizeKeepsSchemeAndHost(scheme, host, scheme + "://" + host);
  }

  lemma ExampleHostIsPlain(host: string)
    requires host == "api.example.com"
    ensures host != [] && host[0] != '/'
    ensures '/' !in host && '?' !in host && '#' !in host && ':' !in host && ';' !in host
  {
  }

  /** The second example of `normalize_url`'s docstring (request.py:42-43). */
  lemma NormalizeAddsSchemeExample(url: string)
    requires url == "api.example.com"
    ensures NormalizeUrl(url) == "https://" + url
  {
    ExampleHostIsPlain(url);
    SlashFreeHasNoTriple(url);
    NormalizeAddsHttps(url);
  }
}
