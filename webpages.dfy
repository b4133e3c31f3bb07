/** webpageparser.py: the per-URL pipeline (conditional request, robots.txt gate, response
    classification, header and markup extraction, upsert of the `urls` row, reset) and the
    URL-list filter. */
module WebPages {
  import opened Wrappers
  import opened Text
  import opened Urls
  import opened HtmlMeta
  import opened Db
  import opened Robots

  /** `requests.codes.ok` and `requests.codes.not_modified`. */
  const StatusOk := 200
  const StatusNotModified := 304

  /** The user agent when the USER_AGENT environment variable is unset. */
  const DefaultUserAgent := "CUPPy/0.1"

  const AngleBrackets: set<char> := {'<', '>'}

  /** A header map; a response's header names are looked up in lower case, as
      `requests`' case-insensitive headers allow. */
  type Headers = map<string, string>

  /** What `requests.get` gives: a response, or an exception. `content` is the body as text. */
  datatype PageResponse = Response(statusCode: int, headers: Headers, content: string) | RequestFailed

  /** The collaborators the pipeline calls and this model does not contain: the robots.txt
      fetch and the standard library's rule matcher, the page fetch, HTMLParser's
      tokeniser, and the text cleaner. */
  datatype Env = Env(
    robotsFetch: string -> RobotsResponse,
    matcher: Matcher,
    get: (string, Headers) -> PageResponse,
    tokenize: string -> seq<Event>,
    stripped: string -> string)

  /** The `robotstxt` and `force` flags and the user agent. */
  datatype Config = Config(robotstxt: bool, force: bool, userAgent: string)

  /** The per-URL fields of a `WebpageParser`. */
  datatype PageState = PageState(
    etag: Option<string>,
    statusCode: Option<int>,
    content: Option<string>,
    headers: Option<Headers>,
    title: Option<string>,
    canonicalUrlFromHeaders: Option<string>,
    canonicalUrlFromHtml: Option<string>,
    ogTitle: Option<string>,
    ogUrl: Option<string>,
    description: Option<string>,
    cleanText: Option<string>)

  const Cleared := PageState(None, None, None, None, None, None, None, None, None, None, None)

  /** Everything one URL's processing reads or changes: the current URL, the per-URL fields,
      the HTML parser's state and the two database tables. */
  datatype Machine = Machine(
    url: Option<string>,
    page: PageState,
    parser: Extracted,
    robotsTxt: map<string, Option<string>>,
    urls: map<string, UrlRow>)

  /** A machine state, and whether the step returned (false: an exception escaped). */
  datatype Step = Step(m: Machine, ok: bool)

  function UserAgentFrom(variable: Option<string>): string {
    variable.GetOr(DefaultUserAgent)
  }

  function HeaderGet(h: Headers, name: string): Option<string> {
    if name in h then Some(h[name]) else None
  }

  /** `get_etag_from_cache`: the etag column of the URL's row, `None` without a row. */
  function CachedEtag(urls: map<string, UrlRow>, url: string): Option<string> {
    if url in urls then urls[url].etag else None
  }

  /** The request headers of `get_webpage`: always the user agent and `Accept: text/html`;
      `If-None-Match` exactly when not forced and the cached etag is non-empty, and then
      equal to it. */
  function RequestHeaders(userAgent: string, force: bool, cachedEtag: Option<string>): (h: Headers)
    ensures "user-agent" in h && h["user-agent"] == userAgent
    ensures "Accept" in h && h["Accept"] == "text/html"
    ensures "If-None-Match" in h <==> !force && Truthy(cachedEtag)
    ensures "If-None-Match" in h ==> h["If-None-Match"] == cachedEtag.value
    ensures h.Keys <= {"user-agent", "Accept", "If-None-Match"}
  {
    var base := map["user-agent" := userAgent, "Accept" := "text/html"];
    if !force && Truthy(cachedEtag) then base["If-None-Match" := cachedEtag.value] else base
  }

  /** The headers `get_webpage` sends for the current URL; the cache is consulted only when
      not forced. */
  function RequestHeadersFor(m: Machine, cfg: Config): Headers
    requires m.url.Some?
  {
    RequestHeaders(cfg.userAgent, cfg.force, if cfg.force then None else CachedEtag(m.urls, m.url.value))
  }

  /** `reset`: every per-URL field `None` and a fresh HTML parser; the URL and the
      database untouched. */
  function ResetM(m: Machine): Machine {
    m.(page := Cleared, parser := Initial)
  }

  /** The `try` block of `get_webpage`: 200 stores etag, status, content and headers; 304
      without `force` stores etag and status only; any other status, 304 with `force`,
      or an exception resets. */
  function ApplyResponse(m: Machine, response: PageResponse, force: bool): (r: Machine)
    ensures r.url == m.url && r.robotsTxt == m.robotsTxt && r.urls == m.urls
    ensures response.Response? && response.statusCode == StatusOk ==>
      r == m.(page := m.page.(etag := HeaderGet(response.headers, "etag"), statusCode := Some(StatusOk),
                              content := Some(response.content), headers := Some(response.headers)))
    ensures response.Response? && response.statusCode == StatusNotModified && !force ==>
      r == m.(page := m.page.(etag := HeaderGet(response.headers, "etag"), statusCode := Some(StatusNotModified)))
    ensures response.RequestFailed? || (response.statusCode != StatusOk && (response.statusCode != StatusNotModified || force)) ==>
      r == ResetM(m)
  {
    match response
    case RequestFailed => ResetM(m)
    case Response(code, h, body) =>
      var p := m.page.(etag := HeaderGet(h, "etag"), statusCode := Some(code));
      if code == StatusOk then m.(page := p.(content := Some(body), headers := Some(h)))
      else if !force && code == StatusNotModified then m.(page := p)
      else ResetM(m)
  }

  /** `get_webpage`: headers, then the robots.txt gate (a refusal resets and returns, an
      exception escapes), then the GET and its classification. */
  function GetWebpageM(m: Machine, cfg: Config, env: Env): (s: Step)
    requires m.url.Some?
    ensures s.m.url == m.url && s.m.urls == m.urls
    ensures !cfg.robotstxt ==> s.ok && s.m.robotsTxt == m.robotsTxt
  {
    var u := m.url.value;
    var hdrs := RequestHeadersFor(m, cfg);
    if cfg.robotstxt then
      var c := CanFetchSpec(m.robotsTxt, Unread, u, "*", env.robotsFetch, env.matcher);
      var m1 := m.(robotsTxt := c.cache);
      match c.verdict
      case Raised => Step(m1, false)
      case Returned(allowed) =>
        if allowed then Step(ApplyResponse(m1, env.get(u, hdrs), cfg.force), true)
        else Step(ResetM(m1), true)
    else Step(ApplyResponse(m, env.get(u, hdrs), cfg.force), true)
  }

  predicate MentionsCanonical(link: string) {
    Contains(link, "canonical")
  }

  /** `link.split(";")[0].strip("<>")`: the text before the first ';' with the leading and
      trailing angle brackets removed. */
  function LinkTarget(link: string): (r: string)
    ensures ';' !in r
    ensures ',' !in link ==> ',' !in r
    ensures r != [] ==> r[0] !in AngleBrackets && r[|r| - 1] !in AngleBrackets
  {
    LinkTargetChars(link);
    Strip(Split(link, ';')[0], AngleBrackets)
  }

  /** The target holds no ';' (the first piece has none) and no ',' unless the link does. */
  lemma LinkTargetChars(link: string)
    ensures var r := Strip(Split(link, ';')[0], AngleBrackets);
      ';' !in r && (',' !in link ==> ',' !in r)
  {
    var first := Split(link, ';')[0];
    var r := Strip(first, AngleBrackets);
    if ';' in r {
      StripCharIn(first, AngleBrackets, ';');
    }
    if ',' in r {
      StripCharIn(first, AngleBrackets, ',');
      var j :| 0 <= j < |first| && first[j] == ',';
      SplitPieceChar(link, ';', 0, j);
    }
  }

  /** A character of a piece of `s.split(sep)` is a character of `s`. */
  lemma SplitPieceChar(s: string, sep: char, i: nat, j: nat)
    requires i < |Split(s, sep)| && j < |Split(s, sep)[i]|
    ensures Split(s, sep)[i][j] in s
    decreases |s|
  {
    var k := Find(s, sep);
    if k != -1 {
      if i == 0 {
        assert Split(s, sep)[0] == s[..k];
      } else {
        SplitPieceChar(s[k + 1..], sep, i - 1, j);
      }
    }
  }

  /** The index of the last piece that mentions "canonical", -1 when none does. */
  function LastCanonicalIndex(links: seq<string>): (k: int)
    ensures -1 <= k < |links|
    ensures k >= 0 ==> MentionsCanonical(links[k])
    ensures forall j :: k < j < |links| ==> !MentionsCanonical(links[j])
    decreases |links|
  {
    if links == [] then -1
    else if MentionsCanonical(links[|links| - 1]) then |links| - 1
    else LastCanonicalIndex(links[..|links| - 1])
  }

  /** The loop of `get_canonical_from_headers` over the comma-separated pieces: the target
      of the last piece that mentions "canonical", if any. */
  function LastCanonical(links: seq<string>): (r: Option<string>)
    ensures r.Some? <==> exists i :: 0 <= i < |links| && MentionsCanonical(links[i])
    ensures r.Some? ==> r.value == LinkTarget(links[LastCanonicalIndex(links)])
  {
    var k := LastCanonicalIndex(links);
    if k < 0 then None else Some(LinkTarget(links[k]))
  }

  /** One more piece: it wins when it mentions "canonical", otherwise the earlier answer stands. */
  lemma LastCanonicalSnoc(links: seq<string>, link: string)
    ensures LastCanonical(links + [link]) ==
      if MentionsCanonical(link) then Some(LinkTarget(link)) else LastCanonical(links)
  {
    var all := links + [link];
    assert all[..|all| - 1] == links;
    if !MentionsCanonical(link) {
      assert forall j :: 0 <= j < |links| ==> all[j] == links[j];
    }
  }

  /** The canonical URL a `Link` header yields (`LastCanonical` of its comma-separated
      pieces) is free of ';' and ',' and does not start or end with an angle bracket. */
  function CanonicalFromLinkHeader(header: string): (r: Option<string>)
    ensures r.Some? ==> ';' !in r.value && ',' !in r.value
    ensures r.Some? && r.value != [] ==> r.value[0] !in AngleBrackets && r.value[|r.value| - 1] !in AngleBrackets
  {
    var links := Split(header, ',');
    var r := LastCanonical(links);
    assert r.Some? ==> ',' !in links[LastCanonicalIndex(links)];
    r
  }

  /** `get_canonical_from_headers`: without stored headers `.get` raises; without a `Link`
      header nothing changes; otherwise the last canonical piece, if any, overwrites
      `canonical_url_from_headers`. */
  function CanonicalFromHeadersM(m: Machine): (s: Step)
    ensures s.ok <==> m.page.headers.Some?
    ensures s.m == m.(page := m.page.(canonicalUrlFromHeaders := s.m.page.canonicalUrlFromHeaders))
    ensures m.page.headers.Some? && !Truthy(HeaderGet(m.page.headers.value, "link")) ==> s == Step(m, true)
  {
    match m.page.headers
    case None => Step(m, false)
    case Some(h) =>
      var link := HeaderGet(h, "link");
      if Truthy(link) then
        match CanonicalFromLinkHeader(link.value)
        case Some(c) => Step(m.(page := m.page.(canonicalUrlFromHeaders := Some(c))), true)
        case None => Step(m, true)
      else Step(m, true)
  }

  /** The field copy of `get_metadata_from_html` as written: `og_url` is copied twice and
      `og_title` never, so the page's `og_title` is whatever it was. */
  function CopyMetadataAsWritten(page: PageState, x: Extracted): (r: PageState)
    ensures r.ogTitle == page.ogTitle
    ensures r.title == x.title && r.ogUrl == x.ogUrl && r.canonicalUrlFromHtml == x.canonicalUrl && r.description == x.description
  {
    page.(canonicalUrlFromHtml := x.canonicalUrl, ogUrl := x.ogUrl, title := x.title, description := x.description)
  }

  /** After a reset the as-written copy loses any `og:title` the parser found. */
  lemma OgTitleLostAsWritten(x: Extracted)
    requires x.ogTitle.Some?
    ensures CopyMetadataAsWritten(Cleared, x).ogTitle == None != x.ogTitle
  {
  }

  /** The field copy with `og_title` copied from the parser: all five extracted fields come
      from the parser, the rest of the page is kept. */
  function CopyMetadata(page: PageState, x: Extracted): (r: PageState)
    ensures r.title == x.title && r.ogUrl == x.ogUrl && r.ogTitle == x.ogTitle
      && r.canonicalUrlFromHtml == x.canonicalUrl && r.description == x.description
    ensures r.etag == page.etag && r.statusCode == page.statusCode && r.content == page.content
      && r.headers == page.headers && r.canonicalUrlFromHeaders == page.canonicalUrlFromHeaders
      && r.cleanText == page.cleanText
  {
    page.(canonicalUrlFromHtml := x.canonicalUrl, ogUrl := x.ogUrl, title := x.title, ogTitle := x.ogTitle,
          description := x.description)
  }

  /** `get_metadata_from_html`: with non-empty content, the body's events are fed to the
      parser and its outputs copied; an exception in a handler escapes. */
  function MetadataM(m: Machine, env: Env): (s: Step)
    ensures s.m.url == m.url && s.m.robotsTxt == m.robotsTxt && s.m.urls == m.urls
    ensures !Truthy(m.page.content) ==> s == Step(m, true)
  {
    if Truthy(m.page.content) then
      var h := Run(m.parser, env.tokenize(m.page.content.value));
      if h.ok then Step(m.(parser := h.state, page := CopyMetadata(m.page, h.state)), true)
      else Step(m.(parser := h.state), false)
    else Step(m, true)
  }

  /** `get_clean_text` as written: `HTMLCleaner.clean_text` does not exist, so with
      non-empty content the call raises AttributeError. */
  function CleanTextAsWritten(m: Machine): (s: Step)
    ensures s.m == m
    ensures s.ok <==> !Truthy(m.page.content)
  {
    if Truthy(m.page.content) then Step(m, false) else Step(m, true)
  }

  /** `get_clean_text` calling the cleaner that exists, `HTMLCleaner.stripped`. */
  function CleanTextM(m: Machine, env: Env): (r: Machine)
    ensures Truthy(m.page.content) ==> r == m.(page := m.page.(cleanText := Some(env.stripped(m.page.content.value))))
    ensures !Truthy(m.page.content) ==> r == m
  {
    if Truthy(m.page.content) then m.(page := m.page.(cleanText := Some(env.stripped(m.page.content.value)))) else m
  }

  /** `parse_url`: fetch; only on status 200 the header, markup and clean-text extraction. */
  function ParseUrlM(m: Machine, cfg: Config, env: Env): (s: Step)
    requires m.url.Some?
    ensures s.m.url == m.url && s.m.urls == m.urls
  {
    var s1 := GetWebpageM(m, cfg, env);
    if !s1.ok || s1.m.page.statusCode != Some(StatusOk) then s1
    else
      var s2 := CanonicalFromHeadersM(s1.m);
      if !s2.ok then s2
      else
        var s3 := MetadataM(s2.m, env);
        if !s3.ok then s3 else Step(CleanTextM(s3.m, env), true)
  }

  /** The `urls` row `write_results_to_database` writes: every column from the page. */
  function RowOf(page: PageState): UrlRow
    requires page.statusCode.Some?
  {
    UrlRow(page.etag, page.statusCode.value, page.title, page.canonicalUrlFromHeaders, page.canonicalUrlFromHtml,
           page.ogUrl, page.ogTitle, page.description, page.cleanText)
  }

  /** `write_results_to_database`: an upsert of the whole row on status 200, nothing otherwise. */
  function WriteM(m: Machine): Machine
    requires m.url.Some?
  {
    if m.page.statusCode == Some(StatusOk) then m.(urls := m.urls[m.url.value := RowOf(m.page)]) else m
  }

  /** One iteration of `parse`: set the URL, `parse_url`, write, reset. */
  function ProcessUrlM(m: Machine, u: string, cfg: Config, env: Env): (s: Step)
    ensures forall k :: k != u ==> (k in s.m.urls <==> k in m.urls)
    ensures forall k :: k != u && k in m.urls ==> s.m.urls[k] == m.urls[k]
    ensures u in s.m.urls ==> (u in m.urls && s.m.urls[u] == m.urls[u]) || s.m.urls[u].statusCode == StatusOk
  {
    var s1 := ParseUrlM(m.(url := Some(u)), cfg, env);
    if !s1.ok then s1 else Step(ResetM(WriteM(s1.m)), true)
  }

  /** `parse`: the URLs in list order, stopping when an exception escapes. */
  function ParseAllM(m: Machine, us: seq<string>, cfg: Config, env: Env): Step
    decreases |us|
  {
    if us == [] then Step(m, true)
    else
      var s := ParseAllM(m, us[..|us| - 1], cfg, env);
      if !s.ok then s else ProcessUrlM(s.m, us[|us| - 1], cfg, env)
  }

  /** Processing a list is processing its first part and then, unless that raised, the rest. */
  lemma {:induction false} ParseAllAppend(m: Machine, a: seq<string>, b: seq<string>, cfg: Config, env: Env)
    ensures ParseAllM(m, a + b, cfg, env) ==
      (var s := ParseAllM(m, a, cfg, env); if s.ok then ParseAllM(s.m, b, cfg, env) else s)
    decreases |b|
  {
    if b == [] {
      assert a + b == a;
    } else {
      assert (a + b)[..|a + b| - 1] == a + b[..|b| - 1];
      ParseAllAppend(m, a, b[..|b| - 1], cfg, env);
    }
  }

  /** One more URL is processed after the earlier ones unless they raised. */
  lemma ParseAllSnoc(m: Machine, us: seq<string>, u: string, cfg: Config, env: Env)
    ensures ParseAllM(m, us + [u], cfg, env) ==
      (var s := ParseAllM(m, us, cfg, env); if s.ok then ProcessUrlM(s.m, u, cfg, env) else s)
  {
    assert (us + [u])[..|us|] == us;
  }

  /** The prefix of a list one URL longer. */
  lemma ParseAllPrefix(m: Machine, us: seq<string>, i: nat, cfg: Config, env: Env)
    requires i < |us|
    ensures ParseAllM(m, us[..i + 1], cfg, env) ==
      (var s := ParseAllM(m, us[..i], cfg, env); if s.ok then ProcessUrlM(s.m, us[i], cfg, env) else s)
  {
    assert us[..i + 1] == us[..i] + [us[i]];
    ParseAllSnoc(m, us[..i], us[i], cfg, env);
  }

  /** The robots.txt gate lets `u` through: checking is off, or robots.txt allows it. */
  predicate GatePasses(m: Machine, u: string, cfg: Config, env: Env) {
    cfg.robotstxt ==> CanFetchSpec(m.robotsTxt, Unread, u, "*", env.robotsFetch, env.matcher).verdict == Returned(true)
  }

  /** A URL refused by robots.txt is not fetched (the answer does not depend on the page
      fetch), and leaves every per-URL field `None` and the `urls` table unchanged. */
  lemma BlockedIsNotFetched(m: Machine, u: string, cfg: Config, env: Env, g: (string, Headers) -> PageResponse)
    requires cfg.robotstxt
    requires CanFetchSpec(m.robotsTxt, Unread, u, "*", env.robotsFetch, env.matcher).verdict == Returned(false)
    ensures var s := ProcessUrlM(m, u, cfg, env);
      s.ok && s.m.page == Cleared && s.m.urls == m.urls && s == ProcessUrlM(m, u, cfg, env.(get := g))
    ensures ParseUrlM(m.(url := Some(u)), cfg, env).m.page.statusCode == None
  {
  }

  /** Extraction runs only on status 200: otherwise `parse_url` is `get_webpage` alone. */
  lemma ExtractionOnlyOn200(m: Machine, cfg: Config, env: Env)
    requires m.url.Some?
    requires GetWebpageM(m, cfg, env).m.page.statusCode != Some(StatusOk)
    ensures ParseUrlM(m, cfg, env) == GetWebpageM(m, cfg, env)
  {
  }

  /** The `urls` table after one URL: the whole row replaced on status 200, untouched for
      every other outcome; and the per-URL fields are cleared for the next URL. */
  lemma UpsertOnlyOn200(m: Machine, u: string, cfg: Config, env: Env)
    requires ProcessUrlM(m, u, cfg, env).ok
    ensures var p := ParseUrlM(m.(url := Some(u)), cfg, env).m.page;
      var s := ProcessUrlM(m, u, cfg, env);
      s.m.urls == (if p.statusCode == Some(StatusOk) then m.urls[u := RowOf(p)] else m.urls)
      && s.m.page == Cleared && s.m.parser == Initial && s.m.url == Some(u)
  {
  }

  /** A 304 answer to an unforced request that passed the gate changes no row and runs no
      extraction. */
  lemma NotModifiedKeepsRow(m: Machine, u: string, cfg: Config, env: Env)
    requires !cfg.force && GatePasses(m, u, cfg, env)
    requires var r := env.get(u, RequestHeadersFor(m.(url := Some(u)), cfg));
      r.Response? && r.statusCode == StatusNotModified
    ensures var s := ProcessUrlM(m, u, cfg, env);
      s.ok && s.m.urls == m.urls
    ensures ParseUrlM(m.(url := Some(u)), cfg, env).m.parser == m.parser
  {
  }

  /** On a cleared page, a 304 answer to an unforced request leaves etag and status and
      no content. */
  lemma NotModifiedStoresNoContent(m: Machine, u: string, cfg: Config, env: Env)
    requires !cfg.force && GatePasses(m, u, cfg, env) && m.page == Cleared
    requires var r := env.get(u, RequestHeadersFor(m.(url := Some(u)), cfg));
      r.Response? && r.statusCode == StatusNotModified
    ensures var r := env.get(u, RequestHeadersFor(m.(url := Some(u)), cfg));
      ParseUrlM(m.(url := Some(u)), cfg, env).m.page ==
        Cleared.(etag := HeaderGet(r.headers, "etag"), statusCode := Some(StatusNotModified))
  {
  }

  /** An exception from the robots.txt fetch escapes `parse`: the run stops at that URL,
      with no row written. */
  lemma RobotsFailureStopsRun(m: Machine, u: string, cfg: Config, env: Env)
    requires cfg.robotstxt
    requires CanFetchSpec(m.robotsTxt, Unread, u, "*", env.robotsFetch, env.matcher).verdict.Raised?
    ensures var s := ProcessUrlM(m, u, cfg, env);
      !s.ok && s.m.urls == m.urls
  {
  }

  /** Between URLs the page is cleared and the HTML parser fresh. */
  lemma {:induction false} ParseAllClears(m: Machine, us: seq<string>, cfg: Config, env: Env)
    requires m.page == Cleared && m.parser == Initial
    ensures var s := ParseAllM(m, us, cfg, env);
      s.ok ==> s.m.page == Cleared && s.m.parser == Initial
    decreases |us|
  {
    if us != [] {
      ParseAllClears(m, us[..|us| - 1], cfg, env);
    }
  }

  /** The etag stored from a 200 answer is sent back as `If-None-Match` on the next unforced
      request for the same URL. */
  lemma EtagSentBack(m: Machine, u: string, cfg: Config, env: Env)
    requires GatePasses(m, u, cfg, env)
    requires var r := env.get(u, RequestHeadersFor(m.(url := Some(u)), cfg));
      r.Response? && r.statusCode == StatusOk && Truthy(HeaderGet(r.headers, "etag"))
    requires ProcessUrlM(m, u, cfg, env).ok
    ensures var r := env.get(u, RequestHeadersFor(m.(url := Some(u)), cfg));
      var next := RequestHeadersFor(ProcessUrlM(m, u, cfg, env).m, cfg.(force := false));
      "If-None-Match" in next && next["If-None-Match"] == HeaderGet(r.headers, "etag").value
  {
    var m0 := m.(url := Some(u));
    var s1 := GetWebpageM(m0, cfg, env);
    var s2 := CanonicalFromHeadersM(s1.m);
    var s3 := MetadataM(s2.m, env);
    assert s3.m.page.etag == s1.m.page.etag;
  }

  /** A URL the list does not contain keeps its row, whatever happens to the others. */
  lemma {:induction false} ParseAllKeepsOtherRows(m: Machine, us: seq<string>, cfg: Config, env: Env, other: string)
    requires other !in us
    ensures var r := ParseAllM(m, us, cfg, env).m;
      (other in r.urls <==> other in m.urls) && (other in m.urls ==> r.urls[other] == m.urls[other])
    decreases |us|
  {
    if us != [] {
      ParseAllKeepsOtherRows(m, us[..|us| - 1], cfg, env, other);
    }
  }

  /** Every row `parse` adds or replaces carries status 200. */
  lemma {:induction false} ParseAllWritesOnly200(m: Machine, us: seq<string>, cfg: Config, env: Env)
    ensures var r := ParseAllM(m, us, cfg, env).m;
      forall k :: k in r.urls ==> (k in m.urls && r.urls[k] == m.urls[k]) || r.urls[k].statusCode == StatusOk
    decreases |us|
  {
    if us != [] {
      ParseAllWritesOnly200(m, us[..|us| - 1], cfg, env);
    }
  }

  /** With `clean_text` as written, every 200 answer with a body raises before its row is
      written, so the run stops there. */
  lemma CleanTextAsWrittenAborts(m: Machine, cfg: Config, env: Env)
    requires m.url.Some?
    requires var s := GetWebpageM(m, cfg, env);
      s.ok && s.m.page.statusCode == Some(StatusOk) && Truthy(s.m.page.content)
    ensures var s1 := GetWebpageM(m, cfg, env);
      var s2 := CanonicalFromHeadersM(s1.m);
      var s3 := MetadataM(s2.m, env);
      s3.ok ==> !CleanTextAsWritten(s3.m).ok
  {
  }

  /** With the existing cleaner, a 200 answer with a body whose markup raises nothing is
      written with its clean text. */
  lemma CleanTextStored(m: Machine, u: string, cfg: Config, env: Env)
    requires GatePasses(m, u, cfg, env)
    requires var r := env.get(u, RequestHeadersFor(m.(url := Some(u)), cfg));
      r.Response? && r.statusCode == StatusOk && r.content != ""
      && Run(m.parser, env.tokenize(r.content)).ok
    ensures var r := env.get(u, RequestHeadersFor(m.(url := Some(u)), cfg));
      var s := ProcessUrlM(m, u, cfg, env);
      s.ok && u in s.m.urls && s.m.urls[u].cleanText == Some(env.stripped(r.content))
      && s.m.urls[u].ogTitle == Run(m.parser, env.tokenize(r.content)).state.ogTitle
  {
    var m0 := m.(url := Some(u));
    var s1 := GetWebpageM(m0, cfg, env);
    var s2 := CanonicalFromHeadersM(s1.m);
    assert s2.m.page.content == s1.m.page.content;
  }

  /** The crawler object of webpageparser.py. The eleven per-URL attributes are held
      together in `page`; each assignment to one of them is an update of that record. */
  class WebpageParser {
    const urls: seq<string>
    var url: Option<string>
    var page: PageState
    var htmlParser: CupHtmlParser
    const db: CuppyDatabase
    const robotstxt: bool
    const force: bool
    const userAgent: string

    ghost function Snapshot(): Machine
      reads this, htmlParser, db
    {
      Machine(url, page, htmlParser.State(), db.robotsTxt, db.urls)
    }

    function Cfg(): Config {
      Config(robotstxt, force, userAgent)
    }

    /** The database is passed in; `userAgentVariable` is the USER_AGENT environment variable. */
    constructor (urls: seq<string>, robotstxt: bool, force: bool, userAgentVariable: Option<string>, db: CuppyDatabase)
      ensures this.urls == urls && this.robotstxt == robotstxt && this.force == force && this.db == db
      ensures userAgent == UserAgentFrom(userAgentVariable)
      ensures url == None && page == Cleared && fresh(htmlParser) && htmlParser.State() == Initial
    {
      this.urls := urls;
      url := None;
      page := Cleared;
      htmlParser := new CupHtmlParser();
      this.db := db;
      this.robotstxt := robotstxt;
      this.force := force;
      userAgent := UserAgentFrom(userAgentVariable);
    }

    method Reset()
      modifies this
      ensures fresh(htmlParser)
      ensures Snapshot() == ResetM(old(Snapshot()))
    {
      page := Cleared;
      htmlParser := new CupHtmlParser();
    }

    method Parse(env: Env) returns (ok: bool)
      modifies this, db, htmlParser
      ensures Step(Snapshot(), ok) == ParseAllM(old(Snapshot()), urls, Cfg(), env)
    {
      ok := true;
      var i := 0;
      while i < |urls| && ok
        invariant i <= |urls|
        invariant htmlParser == old(htmlParser) || fresh(htmlParser)
        invariant Step(Snapshot(), ok) == ParseAllM(old(Snapshot()), urls[..i], Cfg(), env)
      {
        ParseAllPrefix(old(Snapshot()), urls, i, Cfg(), env);
        ok := ProcessUrl(urls[i], env);
        i := i + 1;
      }
      ParseAllAppend(old(Snapshot()), urls[..i], urls[i..], Cfg(), env);
      assert urls[..i] + urls[i..] == urls;
    }

    /** The body of the loop in `parse`. */
    method ProcessUrl(u: string, env: Env) returns (ok: bool)
      modifies this, db, htmlParser
      ensures htmlParser == old(htmlParser) || fresh(htmlParser)
      ensures Step(Snapshot(), ok) == ProcessUrlM(old(Snapshot()), u, Cfg(), env)
    {
      url := Some(u);
      ok := ParseUrl(env);
      if ok {
        WriteResultsToDatabase();
        Reset();
      }
    }

    method GetEtagFromCache() returns (cached: Option<string>)
      requires url.Some?
      ensures cached == CachedEtag(db.urls, url.value)
    {
      if url.value in db.urls {
        cached := db.urls[url.value].etag;
      } else {
        cached := None;
      }
    }

    method ParseUrl(env: Env) returns (ok: bool)
      requires url.Some?
      modifies this, db, htmlParser
      ensures htmlParser == old(htmlParser) || fresh(htmlParser)
      ensures Step(Snapshot(), ok) == ParseUrlM(old(Snapshot()), Cfg(), env)
    {
      ok := GetWebpage(env);
      if !ok {
        return;
      }
      if page.statusCode == Some(StatusOk) {
        ok := GetCanonicalFromHeaders();
        if !ok {
          return;
        }
        ok := GetMetadataFromHtml(env);
        if !ok {
          return;
        }
        GetCleanText(env);
      }
    }

    method GetWebpage(env: Env) returns (ok: bool)
      requires url.Some?
      modifies this, db
      ensures htmlParser == old(htmlParser) || fresh(htmlParser)
      ensures Step(Snapshot(), ok) == GetWebpageM(old(Snapshot()), Cfg(), env)
    {
      var requestHeaders := map["user-agent" := userAgent, "Accept" := "text/html"];
      if !force {
        var cachedEtag := GetEtagFromCache();
        if Truthy(cachedEtag) {
          requestHeaders := requestHeaders["If-None-Match" := cachedEtag.value];
        }
      }
      assert requestHeaders == RequestHeadersFor(old(Snapshot()), Cfg());
      if robotstxt {
        var rp := new RobotsTxtParser(db);
        var verdict := rp.CanFetch(url.value, "*", env.robotsFetch, env.matcher);
        if verdict.Raised? {
          return false;
        }
        if !verdict.value {
          Reset();
          return true;
        }
      }
      match env.get(url.value, requestHeaders) {
        case RequestFailed =>
          Reset();
        case Response(code, h, body) =>
          page := page.(etag := HeaderGet(h, "etag"), statusCode := Some(code));
          if code == StatusOk {
            page := page.(content := Some(body), headers := Some(h));
          } else if !force && code == StatusNotModified {
            // Not modified: etag and status are kept, nothing else.
          } else {
            Reset();
          }
      }
      ok := true;
    }

    method GetCanonicalFromHeaders() returns (ok: bool)
      modifies this
      ensures htmlParser == old(htmlParser)
      ensures Step(Snapshot(), ok) == CanonicalFromHeadersM(old(Snapshot()))
    {
      if page.headers.None? {
        return false;
      }
      var linkHeader := HeaderGet(page.headers.value, "link");
      if Truthy(linkHeader) {
        var links := Split(linkHeader.value, ',');
        var canonical := page.canonicalUrlFromHeaders;
        for i := 0 to |links|
          invariant url == old(url) && page == old(page) && htmlParser == old(htmlParser)
          invariant canonical == (if LastCanonical(links[..i]).Some? then LastCanonical(links[..i]) else page.canonicalUrlFromHeaders)
        {
          assert links[..i + 1] == links[..i] + [links[i]];
          LastCanonicalSnoc(links[..i], links[i]);
          if Contains(links[i], "canonical") {
            canonical := Some(Strip(Split(links[i], ';')[0], AngleBrackets));
          }
        }
        assert links[..|links|] == links;
        assert CanonicalFromLinkHeader(linkHeader.value) == LastCanonical(links);
        page := page.(canonicalUrlFromHeaders := canonical);
      }
      ok := true;
    }

    method GetMetadataFromHtml(env: Env) returns (ok: bool)
      modifies this, htmlParser
      ensures htmlParser == old(htmlParser)
      ensures Step(Snapshot(), ok) == MetadataM(old(Snapshot()), env)
    {
      if Truthy(page.content) {
        var fed := htmlParser.Feed(env.tokenize(page.content.value));
        if !fed {
          return false;
        }
        page := page.(canonicalUrlFromHtml := htmlParser.canonicalUrl);
        page := page.(ogUrl := htmlParser.ogUrl);
        page := page.(title := htmlParser.title);
        page := page.(ogTitle := htmlParser.ogTitle);
        page := page.(description := htmlParser.description);
      }
      ok := true;
    }

    method GetCleanText(env: Env)
      modifies this
      ensures htmlParser == old(htmlParser)
      ensures Snapshot() == CleanTextM(old(Snapshot()), env)
    {
      if Truthy(page.content) {
        page := page.(cleanText := Some(env.stripped(page.content.value)));
      }
    }

    method WriteResultsToDatabase()
      requires url.Some?
      modifies db
      ensures Snapshot() == WriteM(old(Snapshot()))
    {
      if page.statusCode == Some(StatusOk) {
        db.urls := db.urls[url.value := UrlRow(page.etag, page.statusCode.value, page.title,
          page.canonicalUrlFromHeaders, page.canonicalUrlFromHtml, page.ogUrl, page.ogTitle, page.description,
          page.cleanText)];
      }
    }
  }
}
