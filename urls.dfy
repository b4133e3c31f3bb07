/** The part of Python's `urllib.parse.urlparse` the crawler reads (scheme and network
    location), `robots_location`, and the URL-list filter of `get_urls_from_file`. */
module Urls {
  import opened Wrappers
  import opened Text

  datatype UrlParts = UrlParts(scheme: string, netloc: string)

  predicate IsAsciiAlpha(c: char) {
    'a' <= c <= 'z' || 'A' <= c <= 'Z'
  }

  predicate IsSchemeChar(c: char) {
    IsAsciiAlpha(c) || '0' <= c <= '9' || c == '+' || c == '-' || c == '.'
  }

  predicate AllSchemeChars(s: string) {
    forall i :: 0 <= i < |s| ==> IsSchemeChar(s[i])
  }

  predicate EndsNetloc(c: char) {
    c == '/' || c == '?' || c == '#'
  }

  /** Index of the first '/', '?' or '#' at or after `from`, or |s|. */
  function NetlocEnd(s: string, from: nat): (k: nat)
    requires from <= |s|
    ensures from <= k <= |s|
    ensures forall j :: from <= j < k ==> !EndsNetloc(s[j])
    ensures k < |s| ==> EndsNetloc(s[k])
    decreases |s| - from
  {
    if from == |s| || EndsNetloc(s[from]) then from else NetlocEnd(s, from + 1)
  }

  /** Scheme detection of `urlsplit`: the text before the first ':' is the scheme when it is
      non-empty, starts with an ASCII letter and holds only scheme characters; it is lower-cased. */
  function SplitScheme(url: string): (string, string) {
    var i := Find(url, ':');
    if i > 0 && IsAsciiAlpha(url[0]) && AllSchemeChars(url[..i])
    then (Lower(url[..i]), url[i + 1..])
    else ("", url)
  }

  /** Network location of `urlsplit`: after a leading "//", up to the first '/', '?' or '#'. */
  function SplitNetloc(rest: string): string {
    if |rest| >= 2 && rest[..2] == "//" then rest[2..NetlocEnd(rest, 2)] else ""
  }

  /** `urlparse(url)` reduced to (scheme, netloc); `None` where `urlsplit` raises
      ValueError("Invalid IPv6 URL") for a netloc with an unmatched bracket. */
  function UrlSplit(url: string): (r: Option<UrlParts>)
    ensures r.Some? ==> r.value.scheme == "" || IsParsedScheme(r.value.scheme)
    ensures r.Some? ==> IsParsedNetloc(r.value.netloc)
  {
    SchemeOfSplitIsParsed(url);
    var (scheme, rest) := SplitScheme(url);
    var netloc := SplitNetloc(rest);
    if ('[' in netloc) != (']' in netloc) then None else Some(UrlParts(scheme, netloc))
  }

  /** What `robots_location` returns for a scheme and network location. */
  function RobotsUrlOf(p: UrlParts): string {
    p.scheme + "://" + p.netloc + "/robots.txt"
  }

  /** `robots_location(url)`; `Raised` when `urlparse` raises. */
  function RobotsLocation(url: string): (r: Outcome<string>)
    ensures r.Raised? <==> UrlSplit(url).None?
  {
    match UrlSplit(url)
    case None => Raised
    case Some(p) => Returned(RobotsUrlOf(p))
  }

  /** `is_valid_url`: both scheme and netloc non-empty; the `except` branch answers false. */
  predicate IsValidUrl(url: string): (b: bool)
    ensures b ==> UrlSplit(url).Some? && IsParsedScheme(UrlSplit(url).value.scheme) && UrlSplit(url).value.netloc != ""
  {
    match UrlSplit(url)
    case None => false
    case Some(p) => p.scheme != "" && p.netloc != ""
  }

  /** The comprehension of `get_urls_from_file`: the valid lines, in their original order. */
  function FilterValidUrls(lines: seq<string>): (r: seq<string>)
    ensures forall i :: 0 <= i < |r| ==> IsValidUrl(r[i])
    ensures forall u :: u in r <==> u in lines && IsValidUrl(u)
    ensures |r| <= |lines|
  {
    if lines == [] then []
    else
      var init, last := lines[..|lines| - 1], lines[|lines| - 1];
      assert lines == init + [last];
      FilterValidUrls(init) + (if IsValidUrl(last) then [last] else [])
  }

  /** Filtering distributes over concatenation, so order within the list is kept. */
  lemma {:induction false} FilterValidUrlsAppend(a: seq<string>, b: seq<string>)
    ensures FilterValidUrls(a + b) == FilterValidUrls(a) + FilterValidUrls(b)
    decreases |b|
  {
    if b == [] {
      assert a + b == a;
    } else {
      assert (a + b)[..|a + b| - 1] == a + b[..|b| - 1];
      FilterValidUrlsAppend(a, b[..|b| - 1]);
    }
  }

  /** A scheme as `urlsplit` returns it: lower-case scheme characters starting with a letter. */
  predicate IsParsedScheme(s: string) {
    s != [] && IsAsciiAlpha(s[0]) && AllSchemeChars(s) && IsLowered(s)
  }

  /** A netloc as `urlsplit` returns it and accepts. */
  predicate IsParsedNetloc(n: string) {
    (forall j :: 0 <= j < |n| ==> !EndsNetloc(n[j])) && (('[' in n) == (']' in n))
  }

  lemma SchemeOfSplitIsParsed(url: string)
    ensures var (s, _) := SplitScheme(url); s == "" || IsParsedScheme(s)
  {
    var i := Find(url, ':');
    if i > 0 && IsAsciiAlpha(url[0]) && AllSchemeChars(url[..i]) {
      var s := Lower(url[..i]);
      LowerIsLowered(url[..i]);
      assert s[0] == LowerChar(url[0]);
      forall j | 0 <= j < |s| ensures IsSchemeChar(s[j]) {
        assert IsSchemeChar(url[..i][j]);
      }
    }
  }


  /** `urlsplit` reads back the scheme and netloc of `scheme://netloc` followed by a path. */
  lemma SplitOfBuilt(s: string, n: string, tail: string)
    requires IsParsedScheme(s) && IsParsedNetloc(n)
    requires tail == [] || EndsNetloc(tail[0])
    ensures UrlSplit(s + "://" + n + tail) == Some(UrlParts(s, n))
  {
    var rest := "//" + n + tail;
    assert s + "://" + n + tail == s + ":" + rest;
    SchemeOfBuilt(s, rest);
    NetlocOfBuilt(n, tail);
  }

  lemma SchemeOfBuilt(s: string, rest: string)
    requires IsParsedScheme(s)
    ensures SplitScheme(s + ":" + rest) == (s, rest)
  {
    var u := s + ":" + rest;
    assert ':' !in s by {
      forall j | 0 <= j < |s| ensures s[j] != ':' { assert IsSchemeChar(s[j]); }
    }
    assert u == s + (":" + rest);
    FindAfter(s, ":" + rest, ':');
    assert u[..|s|] == s;
    assert u[|s| + 1..] == rest;
    LowerOfLowered(s);
  }

  lemma NetlocOfBuilt(n: string, tail: string)
    requires forall j :: 0 <= j < |n| ==> !EndsNetloc(n[j])
    requires tail == [] || EndsNetloc(tail[0])
    ensures SplitNetloc("//" + n + tail) == n
  {
    var rest := "//" + n + tail;
    assert rest[..2] == "//";
    NetlocEndAt(rest, n, tail);
    assert rest[2..2 + |n|] == n;
  }

  lemma FindAfter(s: string, t: string, c: char)
    requires c !in s && t != [] && t[0] == c
    ensures Find(s + t, c) == |s|
    decreases |s|
  {
    if s != [] {
      assert (s + t)[1..] == s[1..] + t;
      FindAfter(s[1..], t, c);
    }
  }

  lemma NetlocEndAt(rest: string, n: string, tail: string)
    requires |rest| >= 2 && rest == rest[..2] + n + tail
    requires forall j :: 0 <= j < |n| ==> !EndsNetloc(n[j])
    requires tail == [] || EndsNetloc(tail[0])
    ensures NetlocEnd(rest, 2) == 2 + |n|
  {
    assert forall j :: 2 <= j < 2 + |n| ==> rest[j] == n[j - 2];
    assert 2 + |n| < |rest| ==> rest[2 + |n|] == tail[0];
  }

  /** The robots.txt location of a URL's robots.txt location is itself exactly when the URL
      has a scheme or has no netloc: a scheme-relative URL such as "//host/x" maps to
      "://host/robots.txt", whose own location is ":///robots.txt". */
  lemma RobotsLocationIdempotent(url: string)
    requires RobotsLocation(url).Returned?
    ensures var loc := RobotsLocation(url).value;
      RobotsLocation(loc) == Returned(loc) <==> (UrlSplit(url).value.scheme != "" || UrlSplit(url).value.netloc == "")
  {
    var p := UrlSplit(url).value;
    var loc := RobotsUrlOf(p);
    if p.scheme != "" {
      SplitOfBuilt(p.scheme, p.netloc, "/robots.txt");
    } else {
      assert loc[0] == ':';
      assert Find(loc, ':') == 0;
      assert loc[..2] == ":/";
      assert UrlSplit(loc) == Some(UrlParts("", ""));
      if p.netloc != "" {
        assert |RobotsUrlOf(UrlParts("", ""))| != |loc|;
      }
    }
  }

  /** The robots.txt location of a valid URL parses back to the URL's own scheme and netloc. */
  lemma RobotsLocationKeepsOrigin(url: string)
    requires IsValidUrl(url)
    ensures RobotsLocation(url).Returned?
    ensures UrlSplit(RobotsLocation(url).value) == UrlSplit(url)
  {
    var p := UrlSplit(url).value;
    SplitOfBuilt(p.scheme, p.netloc, "/robots.txt");
  }

  /** URLs with the same scheme and netloc share one robots.txt location. */
  lemma SameOriginSameRobots(u1: string, u2: string)
    requires UrlSplit(u1) == UrlSplit(u2)
    ensures RobotsLocation(u1) == RobotsLocation(u2)
  {
  }

  lemma ExampleUrlSplit(url: string)
    requires url == "https://example.com/page"
    ensures UrlSplit(url) == Some(UrlParts("https", "example.com"))
  {
    var scheme, netloc, tail := "https", "example.com", "/page";
    assert IsParsedScheme(scheme) && IsParsedNetloc(netloc);
    assert url == scheme + "://" + netloc + tail by {
      assert scheme + "://" == "https://";
      assert "https://" + netloc == "https://example.com";
      assert "https://example.com" + tail == url;
    }
    SplitOfBuilt(scheme, netloc, tail);
  }

  /** The example of tests/test_robotsparser.py. */
  lemma RobotsLocationExample(url: string)
    requires url == "https://example.com/page"
    ensures RobotsLocation(url) == Returned("https://example.com/robots.txt")
  {
    ExampleUrlSplit(url);
    ExampleRobotsUrl(UrlSplit(url).value);
  }

  lemma ExampleRobotsUrl(p: UrlParts)
    requires p == UrlParts("https", "example.com")
    ensures RobotsUrlOf(p) == "https://example.com/robots.txt"
  {
    var origin := p.scheme + "://";
    assert origin == "https://";
    var host := origin + p.netloc;
    assert host == "https://example.com";
    assert host + "/robots.txt" == "https://example.com/robots.txt";
  }

  /** A line without scheme or netloc is dropped from the URL list; a full URL is kept. */
  lemma FilterExample(lines: seq<string>)
    requires lines == ["https://example.com/page", "not a url"]
    ensures FilterValidUrls(lines) == ["https://example.com/page"]
  {
    ExampleUrlSplit(lines[0]);
    NotAUrl(lines[1]);
    FilterTwo(lines[0], lines[1]);
  }

  lemma NotAUrl(line: string)
    requires line == "not a url"
    ensures !IsValidUrl(line)
  {
    NoColonNotValid(line);
  }

  /** Without a ':' there is no scheme, so the URL is not valid. */
  lemma NoColonNotValid(url: string)
    requires ':' !in url
    ensures !IsValidUrl(url)
  {
  }

  lemma FilterTwo(good: string, bad: string)
    requires IsValidUrl(good) && !IsValidUrl(bad)
    ensures FilterValidUrls([good, bad]) == [good]
  {
    assert [good, bad][..1] == [good];
    assert [good][..0] == [];
  }
}
