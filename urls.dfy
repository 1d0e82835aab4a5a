/** The path the request signature covers: the path component of the
    request URL as Python 3's urllib.parse.urlparse splits it (CPython
    3.12), with every trailing '/' removed by str.rstrip('/'). */
module Urls {

  /** str.find(c): the first index of `c`, or -1. */
  function Find(s: string, c: char): (r: int)
    ensures -1 <= r < |s|
    ensures r == -1 <==> c !in s
    ensures r >= 0 ==> s[r] == c && c !in s[..r]
  {
    if s == [] then -1
    else if s[0] == c then 0
    else
      var k := Find(s[1..], c);
      assert s[1..][..if k < 0 then 0 else k] == s[1..1 + if k < 0 then 0 else k];
      if k < 0 then -1 else k + 1
  }

  /** str.rfind(c): the last index of `c`, or -1. */
  function RFind(s: string, c: char): (r: int)
    ensures -1 <= r < |s|
    ensures r == -1 <==> c !in s
    ensures r >= 0 ==> s[r] == c
    ensures forall j :: r < j < |s| ==> s[j] != c
  {
    if s == [] then -1
    else if s[|s| - 1] == c then |s| - 1
    else RFind(s[..|s| - 1], c)
  }

  /** The first index at or after `from` holding one of `cs`, or |s|:
      the netloc delimiter search of urllib.parse._splitnetloc. */
  function FindAny(s: string, cs: set<char>, from: nat): (r: nat)
    requires from <= |s|
    ensures from <= r <= |s|
    ensures forall k :: from <= k < r ==> s[k] !in cs
    ensures r < |s| ==> s[r] in cs
    decreases |s| - from
  {
    if from == |s| then from
    else if s[from] in cs then from
    else FindAny(s, cs, from + 1)
  }

  /** The text before the first `c`: s.split(c, 1)[0]. */
  function Before(s: string, c: char): (r: string)
    ensures c !in s ==> r == s
    ensures c in s ==> r == s[..Find(s, c)]
    ensures c !in r && |r| <= |s| && r == s[..|r|]
  {
    var i := Find(s, c);
    if i < 0 then s else s[..i]
  }

  predicate IsAsciiAlpha(c: char) { 'a' <= c <= 'z' || 'A' <= c <= 'Z' }

  /** urllib.parse.scheme_chars */
  predicate IsSchemeChar(c: char)
  {
    IsAsciiAlpha(c) || '0' <= c <= '9' || c == '+' || c == '-' || c == '.'
  }

  function AsciiLower(s: string): (r: string)
    ensures |r| == |s|
  {
    seq(|s|, i requires 0 <= i < |s| =>
      if 'A' <= s[i] <= 'Z' then (s[i] as int + 32) as char else s[i])
  }

  /** urllib.parse.uses_params: the schemes whose last path segment may
      carry ';' parameters. */
  predicate UsesParams(scheme: string)
  {
    scheme in ["", "ftp", "hdl", "prospero", "http", "imap", "https", "shttp",
               "rtsp", "rtsps", "rtspu", "sip", "sips", "mms", "sftp", "tel"]
  }

  /** url.lstrip() of every C0 control character and space. */
  function StripLeadingControls(s: string): (r: string)
    ensures r == [] || r[0] > ' '
    ensures |r| <= |s| && r == s[|s| - |r|..]
  {
    if s != [] && s[0] <= ' ' then StripLeadingControls(s[1..]) else s
  }

  /** The removal of every tab, carriage return and line feed. */
  function RemoveUnsafe(s: string): (r: string)
    ensures forall c :: c in r <==> c in s && c !in {'\t', '\r', '\n'}
  {
    if s == [] then []
    else if s[0] in {'\t', '\r', '\n'} then RemoveUnsafe(s[1..])
    else [s[0]] + RemoveUnsafe(s[1..])
  }

  /** The scheme (lower-cased) and the rest of a URL, or "" and the URL
      itself when it has no scheme. */
  function SplitScheme(url: string): (string, string)
  {
    var i := Find(url, ':');
    if i > 0 && IsAsciiAlpha(url[0]) && (forall k :: 0 <= k < i ==> IsSchemeChar(url[k]))
    then (AsciiLower(url[..i]), url[i + 1..])
    else ("", url)
  }

  /** The text after a leading "//netloc", or the text itself. */
  function DropNetloc(s: string): string
  {
    if |s| >= 2 && s[..2] == "//" then s[FindAny(s, {'/', '?', '#'}, 2)..] else s
  }

  /** urllib.parse._splitparams(url)[0]: the path without the ';'
      parameters of its last segment. */
  function DropParams(url: string): (r: string)
    requires ';' in url
    ensures |r| <= |url| && r == url[..|r|]
    ensures |r| < |url| ==> url[|r|] == ';' && forall i :: |r| <= i < |url| ==> url[i] != '/'
    ensures forall i :: 0 <= i < |r| && url[i] == ';' ==> '/' in url[i..]
  {
    if '/' in url then
      var j := RFind(url, '/');
      var k := Find(url[j..], ';');
      assert forall i :: j <= i < |url| && url[i] == ';' ==> j + k <= i && k >= 0 by {
        forall i | j <= i < |url| && url[i] == ';' ensures j + k <= i && k >= 0 {
          assert url[j..][i - j] == ';';
        }
      }
      assert url[j..][0] == '/';
      assert forall i :: 0 <= i < j ==> url[i..][j - i] == '/';
      if k < 0 then url else url[..j + k]
    else url[..Find(url, ';')]
  }

  /** Cutting at '#' and then at '?' leaves neither. */
  lemma NoDelimitersLeft(s: string, path: string)
    requires path == Before(Before(s, '#'), '?')
    ensures '?' !in path && '#' !in path
  {
    assert path == Before(s, '#')[..|path|];
  }

  /** A ';' is left only in a segment that a later '/' closes. */
  predicate ParamsClosed(p: string)
  {
    forall i :: 0 <= i < |p| && p[i] == ';' ==> '/' in p[i..]
  }

  /** What DropParams keeps has a ';' only in a segment a later '/' closes. */
  lemma ParamsClosedBySlash(path: string)
    requires ';' in path
    ensures var r := DropParams(path);
      '?' !in path && '#' !in path ==> '?' !in r && '#' !in r
    ensures ParamsClosed(DropParams(path))
  {
    var r := DropParams(path);
    forall i | 0 <= i < |r| && r[i] == ';' ensures '/' in r[i..] {
      assert path[i] == ';';
      var j := RFind(path, '/');
      assert '/' in path[i..];
      var m :| i <= m < |path| && path[m] == '/';
      assert i < j;
      assert r[i..][j - i] == '/';
    }
  }

  lemma PrefixKeepsOut(p: string, q: string)
    requires |q| <= |p| && q == p[..|q|] && '?' !in p && '#' !in p
    ensures '?' !in q && '#' !in q
  {
  }

  /** urllib.parse.urlparse(url).path */
  function UrlPath(url: string): (r: string)
    ensures '?' !in r && '#' !in r
    ensures UsesParams(SplitScheme(RemoveUnsafe(StripLeadingControls(url))).0) ==> ParamsClosed(r)
  {
    var clean := RemoveUnsafe(StripLeadingControls(url));
    var (scheme, rest) := SplitScheme(clean);
    var path := Before(Before(DropNetloc(rest), '#'), '?');
    NoDelimitersLeft(DropNetloc(rest), path);
    if UsesParams(scheme) && ';' in path then
      ParamsClosedBySlash(path);
      DropParams(path)
    else path
  }

  /** s.rstrip('/'): `s` without any of its trailing slashes. */
  function RStripSlashes(s: string): (r: string)
    ensures |r| <= |s| && r == s[..|r|]
    ensures r == [] || r[|r| - 1] != '/'
    ensures forall k :: |r| <= k < |s| ==> s[k] == '/'
  {
    if s != [] && s[|s| - 1] == '/' then
      var r := RStripSlashes(s[..|s| - 1]);
      assert s[..|s| - 1][..|r|] == s[..|r|];
      r
    else s
  }

  /** The path the hash signature covers. */
  function SignedPath(url: string): (r: string)
    ensures '?' !in r && '#' !in r
    ensures r == [] || r[|r| - 1] != '/'
    ensures |r| <= |UrlPath(url)| && r == UrlPath(url)[..|r|] && forall k :: |r| <= k < |UrlPath(url)| ==> UrlPath(url)[k] == '/'
  {
    PrefixKeepsOut(UrlPath(url), RStripSlashes(UrlPath(url)));
    RStripSlashes(UrlPath(url))
  }

  /** The signed path is the URL's path up to its trailing slashes, and
      stripping it again changes nothing. */
  lemma SignedPathShape(url: string)
    ensures var p := UrlPath(url); var r := SignedPath(url);
      && r == p[..|r|]
      && (r == [] || r[|r| - 1] != '/')
      && (forall k :: |r| <= k < |p| ==> p[k] == '/')
      && RStripSlashes(r) == r
  {
    UnslashedEnd(SignedPath(url));
  }

  /** A text not ending in a slash is its own rstrip('/'). */
  lemma UnslashedEnd(s: string)
    requires s == [] || s[|s| - 1] != '/'
    ensures RStripSlashes(s) == s
  {
  }

  /** Every trailing slash goes, not only the last one. */
  lemma StripsAllTrailingSlashes()
    ensures RStripSlashes("/list//") == "/list"
    ensures RStripSlashes("/list/") == "/list"
    ensures RStripSlashes("/list") == "/list"
    ensures RStripSlashes("///") == ""
  {
    assert "/list//"[..6] == "/list/";
    assert "/list/"[..5] == "/list";
    assert "///"[..2] == "//";
    assert "//"[..1] == "/";
    assert "/"[..0] == "";
  }

  /** A resource or version text that puts no delimiter into the URL. */
  predicate IsPlainSegment(s: string)
  {
    forall c :: c in s ==> c !in {'/', '?', '#', ';', '\t', '\r', '\n'}
  }

  const ApiHost: string := "api.sign-up.to"

  /** For every URL the client builds, "https://api.sign-up.to/v<version>/<resource>",
      the path urlparse finds is "/v<version>/<resource>". */
  lemma ClientUrlPath(version: string, resource: string)
    requires IsPlainSegment(version) && IsPlainSegment(resource)
    ensures UrlPath("https://" + ApiHost + "/v" + version + "/" + resource)
         == "/v" + version + "/" + resource
  {
    var path := "/v" + version + "/" + resource;
    var tail := "//" + ApiHost + path;
    var url := "https:" + tail;
    assert url == "https://" + ApiHost + "/v" + version + "/" + resource;
    PlainPath(version, resource);
    CleanUrl(tail);
    SchemeOfClientUrl(tail);
    NetlocOfClientUrl(path);
  }

  lemma PlainPath(version: string, resource: string)
    requires IsPlainSegment(version) && IsPlainSegment(resource)
    ensures forall c :: c in "/v" + version + "/" + resource ==> c !in {'?', '#', ';', '\t', '\r', '\n'}
  {
    var path := "/v" + version + "/" + resource;
    forall c | c in path ensures c !in {'?', '#', ';', '\t', '\r', '\n'} {
      assert c in "/v" || c in version || c in "/" || c in resource;
    }
  }

  lemma CleanUrl(tail: string)
    requires forall c :: c in tail ==> c !in {'\t', '\r', '\n'}
    ensures RemoveUnsafe(StripLeadingControls("https:" + tail)) == "https:" + tail
  {
    var url := "https:" + tail;
    assert StripLeadingControls(url) == url;
    forall c | c in url ensures c !in {'\t', '\r', '\n'} {
      assert c in "https:" || c in tail;
    }
    RemoveUnsafeIdentity(url);
  }

  lemma SchemeOfClientUrl(tail: string)
    ensures SplitScheme("https:" + tail) == ("https", tail)
  {
    var url := "https:" + tail;
    assert url[5] == ':';
    assert url[..5] == "https";
    assert Find(url, ':') == 5;
    assert url[6..] == tail;
    assert AsciiLower("https") == "https";
  }

  lemma NetlocOfClientUrl(path: string)
    requires |path| > 0 && path[0] == '/'
    requires forall c :: c in path ==> c !in {'?', '#', ';'}
    ensures Before(Before(DropNetloc("//" + ApiHost + path), '#'), '?') == path
  {
    var tail := "//" + ApiHost + path;
    assert tail[..2] == "//";
    assert tail[16] == '/';
    assert forall k :: 2 <= k < 16 ==> tail[k] == ApiHost[k - 2];
    assert FindAny(tail, {'/', '?', '#'}, 2) == 16;
    assert tail[16..] == path;
  }

  lemma RemoveUnsafeIdentity(s: string)
    requires forall c :: c in s ==> c !in {'\t', '\r', '\n'}
    ensures RemoveUnsafe(s) == s
  {
    if s != [] {
      assert s[0] in s;
      assert forall c :: c in s[1..] ==> c in s;
      RemoveUnsafeIdentity(s[1..]);
      assert [s[0]] + s[1..] == s;
    }
  }
}
