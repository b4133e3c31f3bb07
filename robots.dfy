/** robotsparser.py and customrobotsparser.py: the robots.txt cache, the parser that keeps
    the fetched text, and the cache-or-fetch protocol of `can_fetch`. */
module Robots {
  import opened Wrappers
  import opened Text
  import opened Urls
  import opened Db

  /** What `urllib.request.urlopen` gives for the robots.txt URL: the (decoded) body, an
      HTTPError with its status code, or any other exception. */
  datatype RobotsResponse = Body(text: string) | HttpError(code: int) | OtherError

  /** The fields of a `CustomRobotParser`. The rule groups the standard library builds from
      the lines are represented by the line lists handed to `parse`, one per call. */
  datatype RobotsState = RobotsState(
    url: string,
    disallowAll: bool,
    allowAll: bool,
    robotsContent: Option<string>,
    parsed: seq<seq<string>>)

  /** The state `__init__` leaves: no URL, no flags, no content, nothing parsed. */
  const Unread := RobotsState("", false, false, None, [])

  /** The standard library's `RobotFileParser.can_fetch(useragent, url)`, whose rule
      matching is not part of this model. */
  type Matcher = (RobotsState, string, string) -> bool

  /** A matcher that, as the standard library's does, answers from `disallow_all` and then
      `allow_all` before looking at any rule, and refuses everything while nothing has been
      parsed (its `last_checked` is still 0). */
  ghost predicate HonoursFlags(m: Matcher) {
    forall s: RobotsState, ua: string, u: string ::
      (s.disallowAll ==> !m(s, ua, u)) && (!s.disallowAll && s.allowAll ==> m(s, ua, u))
      && (!s.disallowAll && !s.allowAll && s.parsed == [] ==> !m(s, ua, u))
  }

  datatype ReadResult = ReadResult(state: RobotsState, ok: bool)

  predicate IsAuthError(code: int) {
    code == 401 || code == 403
  }

  /** `read`: an HTTP 401/403 sets `disallow_all`, any other 4xx sets `allow_all`, any other
      HTTP error changes nothing; a body is stored and its lines are parsed; any other
      exception escapes. */
  function AfterRead(s: RobotsState, response: RobotsResponse): (r: ReadResult)
    ensures r.ok <==> !response.OtherError?
    ensures r.state.url == s.url
    ensures response.HttpError? && IsAuthError(response.code) ==> r.state == s.(disallowAll := true)
    ensures response.HttpError? && !IsAuthError(response.code) && 400 <= response.code < 500 ==>
      r.state == s.(allowAll := true)
    ensures response.HttpError? && !(400 <= response.code < 500) ==> r.state == s
    ensures response.Body? ==>
      r.state == s.(robotsContent := Some(response.text), parsed := s.parsed + [SplitLines(response.text)])
  {
    match response
    case OtherError => ReadResult(s, false)
    case HttpError(code) =>
      if IsAuthError(code) then ReadResult(s.(disallowAll := true), true)
      else if 400 <= code < 500 then ReadResult(s.(allowAll := true), true)
      else ReadResult(s, true)
    case Body(text) =>
      ReadResult(s.(robotsContent := Some(text), parsed := s.parsed + [SplitLines(text)]), true)
  }

  /** A single `read` of a fresh parser never raises both flags, and keeps content exactly
      when the fetch succeeded. */
  lemma ReadFromUnread(u: string, response: RobotsResponse)
    ensures var r := AfterRead(Unread.(url := u), response);
      !(r.state.disallowAll && r.state.allowAll)
      && (r.state.robotsContent.Some? <==> response.Body?)
      && (r.state.disallowAll <==> response.HttpError? && IsAuthError(response.code))
      && (r.state.allowAll <==> response.HttpError? && !IsAuthError(response.code) && 400 <= response.code < 500)
  {
  }

  /** `RobotsTxtCache.get`: the stored content, `None` for a missing row (or a NULL one). */
  function CacheGet(table: map<string, Option<string>>, url: string): Option<string> {
    if url in table then table[url] else None
  }

  /** `RobotsTxtCache.put`: insert, or replace the content of the existing row. */
  function CachePut(table: map<string, Option<string>>, url: string, content: Option<string>): (t: map<string, Option<string>>)
    ensures t.Keys == table.Keys + {url}
  {
    table[url := content]
  }

  lemma GetAfterPut(table: map<string, Option<string>>, url: string, content: Option<string>)
    ensures CacheGet(CachePut(table, url, content), url) == content
  {
  }

  lemma PutReplaces(table: map<string, Option<string>>, url: string, c1: Option<string>, c2: Option<string>)
    ensures CachePut(CachePut(table, url, c1), url, c2) == CachePut(table, url, c2)
  {
  }

  lemma PutIdempotent(table: map<string, Option<string>>, url: string, content: Option<string>)
    ensures CachePut(CachePut(table, url, content), url, content) == CachePut(table, url, content)
  {
  }

  lemma PutKeepsOthers(table: map<string, Option<string>>, url: string, content: Option<string>, other: string)
    requires other != url
    ensures CacheGet(CachePut(table, url, content), other) == CacheGet(table, other)
  {
  }

  lemma GetAbsent(table: map<string, Option<string>>, url: string)
    requires url !in table
    ensures CacheGet(table, url) == None
  {
  }

  datatype CanFetchResult = CanFetchResult(verdict: Outcome<bool>, cache: map<string, Option<string>>, parser: RobotsState)

  /** `RobotsTxtParser.can_fetch`: the robots.txt location of `url` is the cache key; a
      cached non-empty text is parsed, otherwise the location is fetched and whatever the
      parser then holds as content is stored; the verdict is the matcher's. */
  function CanFetchSpec(cache: map<string, Option<string>>, p: RobotsState, url: string, userAgent: string,
                        fetch: string -> RobotsResponse, matcher: Matcher): CanFetchResult
  {
    match RobotsLocation(url)
    case Raised => CanFetchResult(Raised, cache, p)
    case Returned(loc) =>
      var cached := CacheGet(cache, loc);
      if Truthy(cached) then
        var p1 := p.(parsed := p.parsed + [SplitLines(cached.value)]);
        CanFetchResult(Returned(matcher(p1, userAgent, url)), cache, p1)
      else
        var r := AfterRead(p.(url := loc), fetch(loc));
        if !r.ok then CanFetchResult(Raised, cache, r.state)
        else CanFetchResult(Returned(matcher(r.state, userAgent, url)), CachePut(cache, loc, r.state.robotsContent), r.state)
  }

  /** On a cache hit nothing is fetched and nothing is written: the answer is the same
      whatever the network would have said. */
  lemma HitNeitherFetchesNorWrites(cache: map<string, Option<string>>, p: RobotsState, url: string, userAgent: string,
                                   f1: string -> RobotsResponse, f2: string -> RobotsResponse, matcher: Matcher)
    requires RobotsLocation(url).Returned? && Truthy(CacheGet(cache, RobotsLocation(url).value))
    ensures CanFetchSpec(cache, p, url, userAgent, f1, matcher) == CanFetchSpec(cache, p, url, userAgent, f2, matcher)
    ensures CanFetchSpec(cache, p, url, userAgent, f1, matcher).cache == cache
    ensures CanFetchSpec(cache, p, url, userAgent, f1, matcher).parser.parsed ==
      p.parsed + [SplitLines(CacheGet(cache, RobotsLocation(url).value).value)]
  {
  }

  /** On a miss the location is fetched once and the parser's content is written under it;
      for a fresh parser that content is the body, or `None` after an HTTP error. */
  lemma MissFetchesAndWrites(cache: map<string, Option<string>>, url: string, userAgent: string,
                             fetch: string -> RobotsResponse, matcher: Matcher)
    requires RobotsLocation(url).Returned? && !Truthy(CacheGet(cache, RobotsLocation(url).value))
    requires !fetch(RobotsLocation(url).value).OtherError?
    ensures var loc := RobotsLocation(url).value;
      CanFetchSpec(cache, Unread, url, userAgent, fetch, matcher).cache ==
        CachePut(cache, loc, if fetch(loc).Body? then Some(fetch(loc).text) else None)
  {
  }

  /** A failed fetch stores `None`, so the next call for the same origin misses again. */
  lemma FailedFetchMissesAgain(cache: map<string, Option<string>>, url: string, userAgent: string,
                               fetch: string -> RobotsResponse, matcher: Matcher)
    requires RobotsLocation(url).Returned? && !Truthy(CacheGet(cache, RobotsLocation(url).value))
    requires fetch(RobotsLocation(url).value).HttpError?
    ensures !Truthy(CacheGet(CanFetchSpec(cache, Unread, url, userAgent, fetch, matcher).cache, RobotsLocation(url).value))
  {
  }

  /** An exception other than an HTTP error on the robots.txt fetch escapes and writes nothing. */
  lemma OtherErrorEscapes(cache: map<string, Option<string>>, p: RobotsState, url: string, userAgent: string,
                          fetch: string -> RobotsResponse, matcher: Matcher)
    requires RobotsLocation(url).Returned? && !Truthy(CacheGet(cache, RobotsLocation(url).value))
    requires fetch(RobotsLocation(url).value).OtherError?
    ensures CanFetchSpec(cache, p, url, userAgent, fetch, matcher).verdict == Raised
    ensures CanFetchSpec(cache, p, url, userAgent, fetch, matcher).cache == cache
  {
  }

  /** A robots.txt answered with 401 or 403 forbids every URL of the origin, for every user
      agent; any other 4xx allows every URL; any other HTTP error (a 5xx) sets no flag and
      parses nothing, so every URL is refused. */
  lemma StatusVerdicts(cache: map<string, Option<string>>, url: string, userAgent: string,
                       fetch: string -> RobotsResponse, matcher: Matcher)
    requires HonoursFlags(matcher)
    requires RobotsLocation(url).Returned? && !Truthy(CacheGet(cache, RobotsLocation(url).value))
    requires fetch(RobotsLocation(url).value).HttpError?
    ensures var code := fetch(RobotsLocation(url).value).code;
      var v := CanFetchSpec(cache, Unread, url, userAgent, fetch, matcher).verdict;
      (IsAuthError(code) ==> v == Returned(false)) &&
      (!IsAuthError(code) && 400 <= code < 500 ==> v == Returned(true)) &&
      (!(400 <= code < 500) ==> v == Returned(false))
  {
    var loc := RobotsLocation(url).value;
    var r := AfterRead(Unread.(url := loc), fetch(loc));
    assert r.state.disallowAll ==> !matcher(r.state, userAgent, url);
    assert !r.state.disallowAll && r.state.allowAll ==> matcher(r.state, userAgent, url);
    assert !r.state.disallowAll && !r.state.allowAll && r.state.parsed == [] ==> !matcher(r.state, userAgent, url);
  }

  /** URLs with the same scheme and netloc share one entry: once a call for one of them has
      stored a non-empty text, a call for the other is a hit. */
  lemma SharedOriginHits(cache: map<string, Option<string>>, u1: string, u2: string, userAgent: string,
                         fetch: string -> RobotsResponse, matcher: Matcher, p: RobotsState)
    requires UrlSplit(u1).Some? && UrlSplit(u1) == UrlSplit(u2)
    requires var loc := RobotsLocation(u1).value; fetch(loc).Body? && fetch(loc).text != ""
    ensures var c1 := CanFetchSpec(cache, Unread, u1, userAgent, fetch, matcher).cache;
      Truthy(CacheGet(c1, RobotsLocation(u2).value)) &&
      CanFetchSpec(c1, p, u2, userAgent, fetch, matcher).cache == c1
  {
    SameOriginSameRobots(u1, u2);
  }

  /** The parser of customrobotsparser.py. */
  class CustomRobotParser {
    var url: string
    var disallowAll: bool
    var allowAll: bool
    var robotsContent: Option<string>
    var parsed: seq<seq<string>>

    function State(): RobotsState
      reads this
    {
      RobotsState(url, disallowAll, allowAll, robotsContent, parsed)
    }

    constructor ()
      ensures State() == Unread
    {
      url, disallowAll, allowAll, robotsContent, parsed := "", false, false, None, [];
    }

    /** The standard library's `set_url`. */
    method SetUrl(u: string)
      modifies this
      ensures State() == old(State()).(url := u)
    {
      url := u;
    }

    /** The standard library's `parse`, reduced to recording the lines it was given. */
    method Parse(lines: seq<string>)
      modifies this
      ensures State() == old(State()).(parsed := old(parsed) + [lines])
    {
      parsed := parsed + [lines];
    }

    /** `read`, given the outcome of fetching `url`. */
    method Read(fetch: string -> RobotsResponse) returns (ok: bool)
      modifies this
      ensures ReadResult(State(), ok) == AfterRead(old(State()), fetch(old(url)))
    {
      match fetch(url) {
        case OtherError =>
          return false;
        case HttpError(code) =>
          if code == 401 || code == 403 {
            disallowAll := true;
          } else if code >= 400 && code < 500 {
            allowAll := true;
          }
        case Body(raw) =>
          robotsContent := Some(raw);
          Parse(SplitLines(raw));
      }
      ok := true;
    }

    method CanFetch(userAgent: string, u: string, matcher: Matcher) returns (allowed: bool)
      ensures allowed == matcher(State(), userAgent, u)
    {
      allowed := matcher(State(), userAgent, u);
    }
  }

  /** `RobotsTxtCache` over the `robots_txt` table of the database. */
  class RobotsTxtCache {
    const db: CuppyDatabase

    /** CREATE TABLE IF NOT EXISTS leaves an existing table as it is. */
    constructor (db: CuppyDatabase)
      ensures this.db == db
    {
      this.db := db;
    }

    method Get(url: string) returns (content: Option<string>)
      ensures content == CacheGet(db.robotsTxt, url)
    {
      if url in db.robotsTxt {
        content := db.robotsTxt[url];
      } else {
        content := None;
      }
    }

    method Put(url: string, content: Option<string>)
      modifies db
      ensures db.robotsTxt == CachePut(old(db.robotsTxt), url, content)
      ensures db.urls == old(db.urls)
    {
      db.robotsTxt := db.robotsTxt[url := content];
    }
  }

  /** `RobotsTxtParser`: a fresh `CustomRobotParser` and a cache over the given database. */
  class RobotsTxtParser {
    const parser: CustomRobotParser
    const robotCache: RobotsTxtCache

    constructor (db: CuppyDatabase)
      ensures fresh(parser) && fresh(robotCache)
      ensures parser.State() == Unread && robotCache.db == db
    {
      parser := new CustomRobotParser();
      robotCache := new RobotsTxtCache(db);
    }

    method ReadFromCache(url: string) returns (content: Option<string>)
      ensures content == CacheGet(robotCache.db.robotsTxt, url)
    {
      content := robotCache.Get(url);
    }

    method CanFetch(url: string, userAgent: string, fetch: string -> RobotsResponse, matcher: Matcher)
      returns (verdict: Outcome<bool>)
      modifies parser, robotCache.db
      ensures var r := CanFetchSpec(old(robotCache.db.robotsTxt), old(parser.State()), url, userAgent, fetch, matcher);
        verdict == r.verdict && robotCache.db.robotsTxt == r.cache && parser.State() == r.parser
      ensures robotCache.db.urls == old(robotCache.db.urls)
    {
      var robotsUrl := RobotsLocation(url);
      if robotsUrl.Raised? {
        return Raised;
      }
      var robotsFromCache := ReadFromCache(robotsUrl.value);
      if Truthy(robotsFromCache) {
        parser.Parse(SplitLines(robotsFromCache.value));
      } else {
        parser.SetUrl(robotsUrl.value);
        var ok := parser.Read(fetch);
        if !ok {
          return Raised;
        }
        robotCache.Put(robotsUrl.value, parser.robotsContent);
      }
      var allowed := parser.CanFetch(userAgent, url, matcher);
      verdict := Returned(allowed);
    }
  }
}
