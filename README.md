# Cuppy crawler core in Dafny

Cuppy is a small polite crawler. For every URL in a list it builds a conditional GET
(user agent, `Accept: text/html`, and `If-None-Match` with the etag cached from the last
visit), optionally asks robots.txt for permission, classifies the answer (200, 304, or
anything else), extracts the canonical URL from the `Link` header and the title,
canonical link, Open Graph URL and title, and description from the markup, and, when the
answer is 200, upserts the URL's row in the `urls` table. robots.txt texts are cached per origin in a
`robots_txt` table.

This project models that per-URL logic and proves what it promises:

- `wrappers.dfy` (`Wrappers`): `Option` (Python's `None`) and `Outcome` (a call that
  returns or lets an exception escape).
- `text.dfy` (`Text`): the `str` operations used (`lower`, `find`, `split`, `strip`,
  `splitlines`, substring test), written out with their defining properties.
- `urls.dfy` (`Urls`): the scheme/netloc part of `urllib.parse.urlsplit`,
  `robots_location`, `is_valid_url` and the URL-list filter.
- `htmlmeta.dfy` (`HtmlMeta`): `CupHTMLParser` as a class whose handler methods update its
  seven fields, each proved equal to a pure step function (`OnStartTag`, `OnEndTag`,
  `OnData`). `Feed` is proved equal to the fold `Run` over an event sequence.
- `db.dfy` (`Db`): the two SQLite tables as `map` fields of a `CuppyDatabase` object.
- `robots.dfy` (`Robots`): `CustomRobotParser.read` (status dispatch and content
  capture), `RobotsTxtCache` (upsert table) and `RobotsTxtParser.can_fetch` (hit: parse
  only; miss: fetch then put). Each method is proved against a pure specification
  (`AfterRead`, `CachePut`, `CanFetchSpec`).
- `webpages.dfy` (`WebPages`): `WebpageParser` as a class. Its methods (`Parse`,
  `ProcessUrl`, `ParseUrl`, `GetWebpage`, `GetCanonicalFromHeaders`,
  `GetMetadataFromHtml`, `GetCleanText`, `WriteResultsToDatabase`, `Reset`) are each
  proved equal to a function on a `Machine` snapshot. The snapshot holds the current URL,
  the per-URL fields, the parser's state and both tables. The properties of the pipeline
  are lemmas about those functions.

Outside effects are parameters. An `Env` value holds:

- the robots.txt fetch (`urlopen`) and the standard library's rule matcher;
- the page fetch (`requests.get`);
- HTMLParser's tokeniser, which turns a body into start-tag, end-tag and data events;
- `HTMLCleaner.stripped`.

The `USER_AGENT` environment variable and the database object are constructor parameters.
An exception that escapes is a `false` status flag (`Step.ok`, `Handled.ok`,
`ReadResult.ok`) or `Outcome.Raised`.

The model follows the code, with two exceptions. The pipeline methods of `WebpageParser`
use the corrected metadata copy and the corrected clean-text call listed under
"## Findings"; the code as written is modelled beside them (`CopyMetadataAsWritten`,
`CleanTextAsWritten`). Points of behaviour worth knowing:

- Start-tag names and attribute names are lower-cased, and so are the values of `rel`
  and `name` (cuphtmlparser.py:23-34). The value of `property` is compared exactly, so
  `property="OG:URL"` is not recognised (cuphtmlparser.py:30-32).
- `handle_endtag` compares the tag name verbatim with "head" and "title"
  (cuphtmlparser.py:43-46).
- A failure while handling one URL is not always contained. An exception from the
  robots.txt fetch other than an HTTP error escapes `can_fetch` and ends `parse`
  (`WebPages.RobotsFailureStopsRun`), since `can_fetch` is called outside the `try`
  (webpageparser.py:95-102). So does an exception from a markup handler.
- A robots.txt 5xx answer sets no flag and parses nothing, so the standard library
  refuses every URL (`Robots.StatusVerdicts`). A network failure on the robots.txt fetch
  does not produce a refusal: it raises.
- The docstring at robotsparser.py:38-45 describes first-match rule selection. That
  matching is the standard library's; no code in robotsparser.py or
  customrobotsparser.py implements it.

## Model

| member | source | states |
|---|---|---|
| Text.Lower | cuphtmlparser.py:19 | `str.lower()` keeps the length and maps every character to its lower-case form |
| Text.Find | webpageparser.py:124-127 | the first index of the character, or -1 exactly when it does not occur (used by `split` and by `urlsplit`'s scheme colon) |
| Text.Contains | webpageparser.py:126 | `link.find(w) > -1` holds exactly when `w` occurs at some index of the link |
| Text.Split | webpageparser.py:124 | `split(",")` gives at least one piece, no piece holds the separator, and joining the pieces with it gives back the input |
| Text.Strip | webpageparser.py:127 | `strip("<>")` is the middle slice left after cutting every leading and trailing angle bracket; it neither starts nor ends with one |
| Text.SplitLines | customrobotsparser.py:24 | `splitlines()` yields lines that contain no line boundary |
| Text.SplitLinesOfJoinLines | robotsparser.py:64 | splitting a text written one line per newline gives back exactly those lines |
| Urls.UrlSplit | robotsparser.py:80-81 | a split URL has an empty scheme or a lower-case one starting with a letter, and a netloc free of '/', '?' and '#' that holds '[' exactly when it holds ']' |
| Urls.IsValidUrl | webpageparser.py:209-215 | a valid URL splits without error, with a well-formed scheme and a non-empty netloc |
| Urls.RobotsLocation | robotsparser.py:77-84 | `robots_location` raises exactly when `urlparse` raises (an unmatched bracket in the netloc); otherwise it is scheme + "://" + netloc + "/robots.txt" |
| Urls.RobotsLocationExample | tests/test_robotsparser.py:11-14 | `https://example.com/page` maps to `https://example.com/robots.txt` |
| Urls.RobotsLocationKeepsOrigin | robotsparser.py:81-84 | the robots.txt location of a valid URL parses back to the URL's own scheme and netloc |
| Urls.RobotsLocationIdempotent | robotsparser.py:81-84 | applying `robots_location` to its own output gives the same string exactly when the URL has a scheme or has no netloc |
| Urls.SameOriginSameRobots | robotsparser.py:61-62 | URLs with equal scheme and netloc have the same cache key |
| Urls.FilterValidUrls | webpageparser.py:207-215 | the filter keeps only lines with non-empty scheme and netloc, and keeps every such line |
| Urls.FilterValidUrlsAppend | webpageparser.py:207 | filtering distributes over concatenation, so the kept lines stay in file order |
| Urls.FilterExample | webpageparser.py:207-215 | of a full URL and the line "not a url", only the URL is kept |
| Urls.NoColonNotValid | webpageparser.py:209-215 | a line without ':' has no scheme and is rejected |
| HtmlMeta.CupHtmlParser.constructor | cuphtmlparser.py:6-14 | a fresh parser has all five outputs absent and both flags down |
| HtmlMeta.LowerAttrs | cuphtmlparser.py:16-19 | `_lower_attrs` keeps length, order and values and lower-cases every name |
| HtmlMeta.Dict | cuphtmlparser.py:24 | the keys of `dict(pairs)` are exactly the names among the pairs |
| HtmlMeta.DictLastWins | cuphtmlparser.py:24 | among pairs with the same name, the last one's value is in the dict |
| HtmlMeta.AttrLookupLowered | cuphtmlparser.py:17-24 | names are lower-cased before lookup, and of attributes whose lowered names agree the last gives the value |
| HtmlMeta.OnStartTag | cuphtmlparser.py:21-40 | the step raises exactly for a `link` with a valueless `rel` or a `meta` with a valueless `name`; `head`/`title` raise their flags and no other tag does; `link rel=canonical` (lowered) sets the canonical URL to `href`; `meta` sets og_url/og_title on an exact `property` match and description on a lowered `name` match; other tags change none of these |
| HtmlMeta.CupHtmlParser.HandleStartTag | cuphtmlparser.py:21-40 | the handler's sequential field updates give exactly `OnStartTag`'s state and error outcome |
| HtmlMeta.OnEndTag | cuphtmlparser.py:42-46 | only the verbatim names "head" and "title" clear their flag; nothing else changes |
| HtmlMeta.CupHtmlParser.HandleEndTag | cuphtmlparser.py:42-46 | the handler's field updates equal `OnEndTag` |
| HtmlMeta.EndTagVerbatim | cuphtmlparser.py:43-46 | the call `handle_endtag("HEAD")` leaves `in_head` set |
| HtmlMeta.OnData | cuphtmlparser.py:48-50 | data replaces the title exactly when inside both `head` and `title`; nothing else changes |
| HtmlMeta.CupHtmlParser.HandleData | cuphtmlparser.py:48-51 | the handler's field update equals `OnData` |
| HtmlMeta.CupHtmlParser.Feed | webpageparser.py:133 | feeding events runs the handlers in order and stops at the first that raises, equal to `Run` |
| HtmlMeta.RunAppend | webpageparser.py:133 | feeding two event runs in turn equals feeding their concatenation |
| HtmlMeta.NoHeadNoTitle | cuphtmlparser.py:37-50 | without a `head` start tag no title is ever recorded |
| HtmlMeta.CanonicalOnlyFromLink | cuphtmlparser.py:25-27 | only `link` start tags change the canonical URL |
| HtmlMeta.MetaOnlyFromMeta | cuphtmlparser.py:29-35 | only `meta` start tags change og_url, og_title and description |
| HtmlMeta.NoLinkNoMetaNoError | cuphtmlparser.py:25-35 | events without `link` and `meta` start tags never raise |
| HtmlMeta.LinkCanonicalStep | cuphtmlparser.py:25-27 | `<link rel="canonical" href=h>` sets the canonical URL to h and nothing else |
| HtmlMeta.MetaOgUrlStep | cuphtmlparser.py:29-35 | a `meta` with `property` "og:url", a `content` and no `name` sets og_url to the content and nothing else |
| HtmlMeta.HeadExample | cuphtmlparser.py:21-50 | `<head><title>Hello World</title><link rel=canonical href=…></head>` records title and canonical URL and ends outside `head` and `title` |
| HtmlMeta.BodyTitleExample | cuphtmlparser.py:48-50 | a `title` in the body is never recorded |
| Robots.CustomRobotParser.constructor | customrobotsparser.py:8-10 | a fresh parser has no URL, no flags, no content and nothing parsed |
| Robots.AfterRead | customrobotsparser.py:12-24 | `read` returns unless a non-HTTP exception escapes; 401/403 sets `disallow_all`; another 4xx sets `allow_all`; any other HTTP error changes nothing; a body is stored and exactly its lines are parsed |
| Robots.CustomRobotParser.Read | customrobotsparser.py:12-24 | the method's field updates equal `AfterRead` of the fetch of its URL |
| Robots.ReadFromUnread | customrobotsparser.py:16-24 | one `read` on a fresh parser never raises both flags, keeps content exactly on success, and raises each flag exactly on its status class |
| Robots.CustomRobotParser.CanFetch | customrobotsparser.py:26-27 | the verdict is the standard library matcher's on the parser's state |
| Robots.CustomRobotParser.SetUrl | robotsparser.py:66 | only the URL changes |
| Robots.CustomRobotParser.Parse | customrobotsparser.py:24 | the given lines are recorded after the earlier ones |
| Robots.RobotsTxtCache.constructor | robotsparser.py:12-15 | the cache sits over the given database and creating the table keeps existing rows |
| Robots.RobotsTxtCache.Get | robotsparser.py:18-26 | the stored content, `None` for a missing row |
| Robots.RobotsTxtCache.Put | robotsparser.py:28-35 | an upsert of one row; the `urls` table is untouched |
| Robots.CachePut | robotsparser.py:28-35 | the keys after `put` are the old keys plus the URL |
| Robots.GetAfterPut | robotsparser.py:18-35 | `get(u)` after `put(u, c)` is `c` |
| Robots.PutReplaces | robotsparser.py:28-35 | a second `put` to the same key replaces the first |
| Robots.PutIdempotent | robotsparser.py:28-35 | repeating the same `put` changes nothing |
| Robots.PutKeepsOthers | robotsparser.py:21-35 | `put` on one key leaves every other key's entry as it was |
| Robots.GetAbsent | robotsparser.py:21-26 | `get` of an absent key is `None` |
| Robots.RobotsTxtParser.constructor | robotsparser.py:47-51 | a fresh parser and a cache over the given database |
| Robots.RobotsTxtParser.ReadFromCache | robotsparser.py:53-56 | the cache's content for the URL |
| Robots.RobotsTxtParser.CanFetch | robotsparser.py:58-69 | verdict, cache table and parser state are those of `CanFetchSpec` (key = robots location; hit parses the cached text; miss fetches, then stores the parser's content); the `urls` table is untouched |
| Robots.HitNeitherFetchesNorWrites | robotsparser.py:63-64 | on a non-empty hit the answer does not depend on the network, the cache is unchanged, and the cached lines are parsed |
| Robots.MissFetchesAndWrites | robotsparser.py:65-68 | on a miss, after `read` returns, the body (or `None` after an HTTP error) is stored under the robots location |
| Robots.FailedFetchMissesAgain | robotsparser.py:65-68 | after an HTTP error the stored `None` makes the next call miss again |
| Robots.OtherErrorEscapes | customrobotsparser.py:14-16 | a non-HTTP exception on a miss escapes `can_fetch` and writes nothing |
| Robots.StatusVerdicts | customrobotsparser.py:16-20 | a 401/403 robots.txt refuses every URL of the origin, another 4xx allows every URL, any other HTTP error refuses |
| Robots.SharedOriginHits | robotsparser.py:61-68 | once a URL's robots.txt text is stored, a URL of the same origin hits and writes nothing |
| WebPages.WebpageParser.constructor | webpageparser.py:13-35 | URL list, flags and database as given; user agent from `USER_AGENT` or "CUPPy/0.1"; no URL, every per-URL field `None`, a fresh HTML parser |
| WebPages.WebpageParser.Reset | webpageparser.py:37-50 | every per-URL field `None` and a fresh HTML parser; URL, tables, flags and user agent untouched |
| WebPages.WebpageParser.GetEtagFromCache | webpageparser.py:62-70 | the etag of the URL's row, `None` without a row |
| WebPages.RequestHeaders | webpageparser.py:84-93 | user agent and `Accept: text/html` always; `If-None-Match` exactly when not forced and the cached etag is non-empty, and then equal to it; no other header |
| WebPages.ApplyResponse | webpageparser.py:103-118 | 200 stores etag, status, content and headers; 304 without `force` stores etag and status only; any other status, a forced 304, or an exception resets |
| WebPages.GetWebpageM | webpageparser.py:80-118 | fetching keeps the URL and the `urls` table; without robots checking it never raises and leaves the robots cache alone |
| WebPages.WebpageParser.GetWebpage | webpageparser.py:80-118 | the method's state changes and outcome equal `GetWebpageM`: headers, robots gate (refusal resets, exception escapes), GET and classification |
| WebPages.BlockedIsNotFetched | webpageparser.py:95-102 | a URL robots.txt refuses is never fetched, its status is `None`, every per-URL field is cleared and no row is written |
| WebPages.RobotsFailureStopsRun | webpageparser.py:95-97 | an exception from the robots.txt fetch escapes the URL's processing with no row written |
| WebPages.LinkTargetChars | webpageparser.py:127 | the first ';'-piece, stripped of angle brackets, holds no ';', and no ',' unless the link does |
| WebPages.LinkTarget | webpageparser.py:127 | `link.split(";")[0].strip("<>")` holds no ';', no ',' when the piece has none, and neither starts nor ends with an angle bracket |
| WebPages.LastCanonicalIndex | webpageparser.py:124-127 | the index of the last piece mentioning "canonical", -1 when none does |
| WebPages.LastCanonical | webpageparser.py:124-127 | a result exists exactly when some piece mentions "canonical", and it is the target of the last such piece |
| WebPages.LastCanonicalSnoc | webpageparser.py:125-127 | one more piece wins if it mentions "canonical", otherwise the earlier answer stands |
| WebPages.CanonicalFromLinkHeader | webpageparser.py:122-127 | the URL taken from a `Link` header has no ';' or ',', and neither starts nor ends with an angle bracket |
| WebPages.CanonicalFromHeadersM | webpageparser.py:120-127 | raises exactly when no headers are stored; only `canonical_url_from_headers` can change; without a `Link` header nothing changes |
| WebPages.WebpageParser.GetCanonicalFromHeaders | webpageparser.py:120-127 | the loop over the comma-separated pieces leaves exactly the state of `CanonicalFromHeadersM` |
| WebPages.CopyMetadataAsWritten | webpageparser.py:134-138 | the copy as written takes canonical URL, og_url, title and description from the parser and leaves og_title as it was |
| WebPages.OgTitleLostAsWritten | webpageparser.py:134-138 | after a reset the as-written copy stores `None` as og_title even when the page has one |
| WebPages.CopyMetadata | webpageparser.py:134-138 | all five extracted fields come from the parser and every other per-URL field is kept |
| WebPages.MetadataM | webpageparser.py:129-141 | (corrected pipeline) URL and tables untouched; with no content nothing changes |
| WebPages.WebpageParser.GetMetadataFromHtml | webpageparser.py:129-141 | (corrected pipeline) feeding the body and copying the outputs gives exactly `MetadataM` |
| WebPages.CleanTextAsWritten | webpageparser.py:143-149 | as written, `get_clean_text` raises exactly when there is content, and changes nothing |
| WebPages.CleanTextAsWrittenAborts | webpageparser.py:143-149 | as written, every 200 answer with a body whose markup raises nothing fails in `get_clean_text` |
| WebPages.CleanTextM | webpageparser.py:143-149 | with content, the clean text is the cleaner's output on it; without, nothing changes |
| WebPages.WebpageParser.GetCleanText | webpageparser.py:143-149 | (corrected pipeline) the method's update equals `CleanTextM` |
| WebPages.CleanTextStored | webpageparser.py:143-147 | (corrected pipeline) when the robots gate passes, a 200 answer with a body whose markup raises nothing is written with its clean text and its og_title |
| WebPages.ParseUrlM | webpageparser.py:72-78 | (corrected pipeline) `parse_url` keeps the URL and the `urls` table |
| WebPages.WebpageParser.ParseUrl | webpageparser.py:72-78 | (corrected pipeline) the method's sequence of steps equals `ParseUrlM` |
| WebPages.ExtractionOnlyOn200 | webpageparser.py:72-78 | unless the status is 200, `parse_url` is `get_webpage` alone |
| WebPages.WebpageParser.WriteResultsToDatabase | webpageparser.py:151-199 | an upsert of the whole row on status 200, nothing otherwise |
| WebPages.UpsertOnlyOn200 | webpageparser.py:151-199 | (corrected pipeline) after one URL, its row is fully replaced on 200 and the table is otherwise unchanged; the per-URL fields and parser are reset |
| WebPages.NotModifiedKeepsRow | webpageparser.py:111-112 | (corrected pipeline) an unforced 304 to a request that passed the robots gate (checking off, or the URL allowed) changes no row and runs no extraction |
| WebPages.NotModifiedStoresNoContent | webpageparser.py:103-112 | an unforced 304 to a request that passed the robots gate leaves only etag and status, with no content |
| WebPages.EtagSentBack | webpageparser.py:87-106 | (corrected pipeline) when the robots gate passes (checking off, or the URL allowed), the etag of a 200 answer is sent back as `If-None-Match` on the next unforced request for that URL |
| WebPages.ProcessUrlM | webpageparser.py:56-60 | (corrected pipeline) one iteration changes no other URL's row, and the URL's own row is either unchanged or carries status 200 |
| WebPages.WebpageParser.ProcessUrl | webpageparser.py:56-60 | (corrected pipeline) set URL, `parse_url`, write, reset: equal to `ProcessUrlM` |
| WebPages.WebpageParser.Parse | webpageparser.py:53-60 | (corrected pipeline) the loop processes the URLs in list order, stopping when an exception escapes: equal to the fold `ParseAllM` |
| WebPages.ParseAllAppend | webpageparser.py:56-60 | (corrected pipeline) processing a list is processing its first part and then, unless that raised, the rest |
| WebPages.ParseAllSnoc | webpageparser.py:56-60 | (corrected pipeline) one more URL is processed after the earlier ones unless they raised |
| WebPages.ParseAllClears | webpageparser.py:56-60 | (corrected pipeline) between URLs the page is cleared and the parser fresh |
| WebPages.ParseAllKeepsOtherRows | webpageparser.py:53-60 | (corrected pipeline) a URL not in the list keeps its row |
| WebPages.ParseAllWritesOnly200 | webpageparser.py:151-153 | (corrected pipeline) every row `parse` adds or replaces carries status 200 |

## Left out

- Rule matching, sitemaps (`get_sitemaps`, robotsparser.py:71-74) and crawl-delay are the
  standard library's `RobotFileParser`. Its `can_fetch` is the parameter `Matcher`, and its
  `parse` is reduced to recording the line lists it is given.
- Robots.StatusVerdicts: holds for matchers satisfying `HonoursFlags`, which states the
  standard library's order: `disallow_all`, then `allow_all`, then "nothing read yet
  refuses". It is an assumption about library code this model does not contain.
- HTML tokenisation by `html.parser.HTMLParser` is the parameter `Env.tokenize`, which
  produces the start-tag, end-tag and data events. It is not constrained to lower-case
  tag names as HTMLParser's are, so the handlers are modelled for any name they are
  called with.
- Urls.UrlSplit models only scheme and netloc of `urlsplit`. It does not strip leading
  whitespace or tabs and newlines, and it does not validate bracketed hosts beyond the
  unmatched-bracket error. Path, query and fragment are never read.
- Urls.RobotsLocationIdempotent: `robots_location` is not idempotent for scheme-relative
  URLs. "//host/x" maps to "://host/robots.txt", and that maps to ":///robots.txt". The
  lemma states the exact condition instead of the unconditional claim.
- `str.lower()` is modelled on ASCII letters only.
- UTF-8 decoding of bodies (`raw.decode`, `content.decode`) is left out. Bodies are
  strings already.
- The `timestamp` column is the database clock. It is not modelled.
- SQLite connection handling and cuppydb.py's error-swallowing around queries are not
  modelled. The database object is passed to the constructor instead of opened by name.
- The network calls (`requests.get`, `urllib.request.urlopen`) are the `Env` fields `get`
  and `robotsFetch`.
- `print` logging, file reading, argparse and `main` are left out.
- textsummarizer.py is left out; it calls a remote API and is not used by the pipeline.
- `HTMLCleaner.stripped` and BeautifulSoup are the parameter `Env.stripped`.
- `success_count` and `run_id` are set but never used in webpageparser.py.
- Response header names are looked up in lower case ("etag", "link"). This is how
  `requests`' case-insensitive header map answers.
- WebPages.WebpageParser: the eleven per-URL attributes are one record field `page`.
  Each attribute assignment is an update of that record.
- WebPages.WebpageParser: `GetMetadataFromHtml` copies og_title and `GetCleanText` calls
  `Env.stripped`, the two corrections under "## Findings". So `ParseUrl`, `ProcessUrl`,
  `Parse` and the lemmas marked "(corrected pipeline)" describe the corrected program. As
  written, og_title is never stored and `parse` stops with an exception at the first URL
  answering 200 with a non-empty body whose markup raises nothing
  (`CleanTextAsWrittenAborts`).
- WebPages.CanonicalFromLinkHeader: its own contract states only the shape of the
  result. "A result exists exactly when a piece mentions canonical" is stated by
  `LastCanonical`, which it returns.
- Robots.CustomRobotParser.Parse: the `last_checked` time stamp the standard library sets
  is represented by the list of parsed line lists being non-empty.

## Findings

| source | as written | input that shows it | evidently intended | confidence | as-written member | corrected member |
|---|---|---|---|---|---|---|
| webpageparser.py:134-138 | `og_url` is copied twice and `og_title` is never copied, so every stored row has `og_title` NULL | a 200 page whose head holds `<meta property="og:title" content="T">` is stored with og_title NULL (lemma `WebPages.OgTitleLostAsWritten`) | copy `og_title` from the parser | high, not executed | WebPages.CopyMetadataAsWritten | WebPages.CopyMetadata |
| webpageparser.py:147 | calls `HTMLCleaner.clean_text`, which htmlcleaner.py does not define (it defines `stripped`, htmlcleaner.py:17), so AttributeError escapes `parse` | any URL answering 200 with a non-empty body whose markup raises nothing (lemma `WebPages.CleanTextAsWrittenAborts`) | call `HTMLCleaner.stripped(html)` and store its result (lemma `WebPages.CleanTextStored`) | high, not executed | WebPages.CleanTextAsWritten | WebPages.CleanTextM |
