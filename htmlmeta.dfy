/** cuphtmlparser.py: the metadata extractor, driven by the start-tag, end-tag and data
    events that Python's `html.parser.HTMLParser` delivers to it. */
module HtmlMeta {
  import opened Wrappers
  import opened Text

  /** An attribute as HTMLParser reports it: a name and a value that is `None` when the
      attribute is written without one. */
  type Attr = (string, Option<string>)

  datatype Event =
    | StartTag(tag: string, attrs: seq<Attr>)
    | EndTag(tag: string)
    | Data(data: string)

  /** The parser's fields. */
  datatype Extracted = Extracted(
    canonicalUrl: Option<string>,
    ogUrl: Option<string>,
    ogTitle: Option<string>,
    inTitle: bool,
    inHead: bool,
    title: Option<string>,
    description: Option<string>)

  /** The state `__init__` sets up. */
  const Initial := Extracted(None, None, None, false, false, None, None)

  /** The state after a handler, and whether it returned (false: an exception escaped). */
  datatype Handled = Handled(state: Extracted, ok: bool)

  /** `_lower_attrs`: every name lower-cased, values and order kept. */
  function LowerAttrs(attrs: seq<Attr>): (r: seq<Attr>)
    ensures |r| == |attrs|
    ensures forall i :: 0 <= i < |attrs| ==> r[i] == (Lower(attrs[i].0), attrs[i].1)
  {
    if attrs == [] then [] else [(Lower(attrs[0].0), attrs[0].1)] + LowerAttrs(attrs[1..])
  }

  /** `dict(pairs)`: a later pair overwrites an earlier one with the same name. */
  function Dict(pairs: seq<Attr>): (d: map<string, Option<string>>)
    ensures forall k :: k in d <==> exists i :: 0 <= i < |pairs| && pairs[i].0 == k
  {
    if pairs == [] then map[]
    else
      var init := pairs[..|pairs| - 1];
      assert forall i :: 0 <= i < |init| ==> init[i] == pairs[i];
      Dict(init)[pairs[|pairs| - 1].0 := pairs[|pairs| - 1].1]
  }

  /** With duplicate names, the value of the last pair carrying the name wins. */
  lemma {:induction false} DictLastWins(pairs: seq<Attr>, i: nat)
    requires i < |pairs|
    requires forall j :: i < j < |pairs| ==> pairs[j].0 != pairs[i].0
    ensures pairs[i].0 in Dict(pairs) && Dict(pairs)[pairs[i].0] == pairs[i].1
  {
    if i < |pairs| - 1 {
      var init := pairs[..|pairs| - 1];
      assert init[i] == pairs[i];
      DictLastWins(init, i);
    }
  }

  /** Names are lower-cased before lookup, and of several attributes whose names agree once
      lower-cased the last one gives the value. */
  lemma AttrLookupLowered(attrs: seq<Attr>, i: nat)
    requires i < |attrs|
    requires forall j :: i < j < |attrs| ==> Lower(attrs[j].0) != Lower(attrs[i].0)
    ensures Get(AttrsDict(attrs), Lower(attrs[i].0)) == attrs[i].1
  {
    DictLastWins(LowerAttrs(attrs), i);
  }

  /** `d.get(k)`. */
  function Get(d: map<string, Option<string>>, k: string): Option<string> {
    if k in d then d[k] else None
  }

  /** `d.get(k, default)`: the default only when the name is absent; a valueless attribute
      still gives `None`. */
  function GetOr(d: map<string, Option<string>>, k: string, default: string): Option<string> {
    if k in d then d[k] else Some(default)
  }

  /** The attribute table `handle_starttag` looks names up in. */
  function AttrsDict(attrs: seq<Attr>): map<string, Option<string>> {
    Dict(LowerAttrs(attrs))
  }

  /** `rel` or `name`, as looked up against the lower-cased "canonical"/"description";
      `None` where the attribute is present without a value, so `.lower()` fails. */
  function LoweredOr(d: map<string, Option<string>>, k: string): Option<string> {
    match GetOr(d, k, "")
    case None => None
    case Some(v) => Some(Lower(v))
  }

  /** `handle_starttag`. The tag name is lower-cased; a `link` whose `rel` (lower-cased) is
      "canonical" records its `href`; a `meta` compares `property` exactly with "og:url" and
      "og:title" and `name` (lower-cased) with "description", recording `content`; `head` and
      `title` raise their flags. A valueless `rel` on a `link`, or a valueless `name` on a
      `meta`, raises AttributeError, the latter after the two `property` checks took effect. */
  function OnStartTag(s: Extracted, tag: string, attrs: seq<Attr>): (h: Handled)
    ensures !h.ok <==>
      (Lower(tag) == "link" && LoweredOr(AttrsDict(attrs), "rel").None?) ||
      (Lower(tag) == "meta" && LoweredOr(AttrsDict(attrs), "name").None?)
    ensures h.state.inHead == (s.inHead || (h.ok && Lower(tag) == "head"))
    ensures h.state.inTitle == (s.inTitle || (h.ok && Lower(tag) == "title"))
    ensures h.state.title == s.title
    ensures Lower(tag) != "link" ==> h.state.canonicalUrl == s.canonicalUrl
    ensures Lower(tag) != "meta" ==>
      h.state.ogUrl == s.ogUrl && h.state.ogTitle == s.ogTitle && h.state.description == s.description
    ensures Lower(tag) == "link" && LoweredOr(AttrsDict(attrs), "rel") == Some("canonical") ==>
      h.state.canonicalUrl == Get(AttrsDict(attrs), "href")
    ensures Lower(tag) == "link" && LoweredOr(AttrsDict(attrs), "rel") != Some("canonical") ==>
      h.state.canonicalUrl == s.canonicalUrl
    ensures Lower(tag) == "meta" ==>
      h.state.ogUrl == (if Get(AttrsDict(attrs), "property") == Some("og:url") then Get(AttrsDict(attrs), "content") else s.ogUrl) &&
      h.state.ogTitle == (if Get(AttrsDict(attrs), "property") == Some("og:title") then Get(AttrsDict(attrs), "content") else s.ogTitle) &&
      h.state.description ==
        (if LoweredOr(AttrsDict(attrs), "name") == Some("description") then Get(AttrsDict(attrs), "content") else s.description)
  {
    var t := Lower(tag);
    var d := AttrsDict(attrs);
    if t == "link" then
      match LoweredOr(d, "rel")
      case None => Handled(s, false)
      case Some(rel) => Handled(if rel == "canonical" then s.(canonicalUrl := Get(d, "href")) else s, true)
    else if t == "meta" then
      var s1 := if Get(d, "property") == Some("og:url") then s.(ogUrl := Get(d, "content")) else s;
      var s2 := if Get(d, "property") == Some("og:title") then s1.(ogTitle := Get(d, "content")) else s1;
      match LoweredOr(d, "name")
      case None => Handled(s2, false)
      case Some(name) => Handled(if name == "description" then s2.(description := Get(d, "content")) else s2, true)
    else if t == "head" then Handled(s.(inHead := true), true)
    else if t == "title" then Handled(s.(inTitle := true), true)
    else Handled(s, true)
  }

  /** `handle_endtag`: the name is compared as given, so only "head" and "title" clear a
      flag and nothing else changes. */
  function OnEndTag(s: Extracted, tag: string): (r: Extracted)
    ensures r.inHead == (s.inHead && tag != "head")
    ensures r.inTitle == (s.inTitle && tag != "title")
    ensures r == s.(inHead := r.inHead, inTitle := r.inTitle)
  {
    var s1 := if tag == "head" then s.(inHead := false) else s;
    if tag == "title" then s1.(inTitle := false) else s1
  }

  /** `handle_data`: text seen inside both `head` and `title` replaces the title; anything
      else leaves the state as it is. */
  function OnData(s: Extracted, data: string): (r: Extracted)
    ensures r.title == (if s.inTitle && s.inHead then Some(data) else s.title)
    ensures r == s.(title := r.title)
  {
    if s.inTitle && s.inHead then s.(title := Some(data)) else s
  }

  function OnEvent(s: Extracted, e: Event): Handled {
    match e
    case StartTag(tag, attrs) => OnStartTag(s, tag, attrs)
    case EndTag(tag) => Handled(OnEndTag(s, tag), true)
    case Data(data) => Handled(OnData(s, data), true)
  }

  /** The handlers applied to events in order, stopping at the first that raises. */
  function Run(s: Extracted, events: seq<Event>): Handled
    decreases |events|
  {
    if events == [] then Handled(s, true)
    else
      var h := Run(s, events[..|events| - 1]);
      if h.ok then OnEvent(h.state, events[|events| - 1]) else h
  }

  /** Feeding two event runs one after the other is feeding their concatenation. */
  lemma {:induction false} RunAppend(s: Extracted, a: seq<Event>, b: seq<Event>)
    ensures Run(s, a + b) == (var h := Run(s, a); if h.ok then Run(h.state, b) else h)
    decreases |b|
  {
    if b == [] {
      assert a + b == a;
    } else {
      assert (a + b)[..|a + b| - 1] == a + b[..|b| - 1];
      RunAppend(s, a, b[..|b| - 1]);
    }
  }

  predicate OpensTag(e: Event, name: string) {
    e.StartTag? && Lower(e.tag) == name
  }

  /** Without a `head` start tag, a parser outside `head` stays outside and never records a
      title. */
  lemma {:induction false} NoHeadNoTitle(s: Extracted, events: seq<Event>)
    requires !s.inHead
    requires forall i :: 0 <= i < |events| ==> !OpensTag(events[i], "head")
    ensures !Run(s, events).state.inHead && Run(s, events).state.title == s.title
    decreases |events|
  {
    if events != [] {
      NoHeadNoTitle(s, events[..|events| - 1]);
    }
  }

  /** Only a `link` start tag can change the canonical URL. */
  lemma {:induction false} CanonicalOnlyFromLink(s: Extracted, events: seq<Event>)
    requires forall i :: 0 <= i < |events| ==> !OpensTag(events[i], "link")
    ensures Run(s, events).state.canonicalUrl == s.canonicalUrl
    decreases |events|
  {
    if events != [] {
      CanonicalOnlyFromLink(s, events[..|events| - 1]);
    }
  }

  /** Only a `meta` start tag can change the Open Graph fields or the description. */
  lemma {:induction false} MetaOnlyFromMeta(s: Extracted, events: seq<Event>)
    requires forall i :: 0 <= i < |events| ==> !OpensTag(events[i], "meta")
    ensures var r := Run(s, events).state;
      r.ogUrl == s.ogUrl && r.ogTitle == s.ogTitle && r.description == s.description
    decreases |events|
  {
    if events != [] {
      MetaOnlyFromMeta(s, events[..|events| - 1]);
    }
  }

  /** Without `link` and `meta` start tags no event can raise. */
  lemma {:induction false} NoLinkNoMetaNoError(s: Extracted, events: seq<Event>)
    requires forall i :: 0 <= i < |events| ==> !OpensTag(events[i], "link") && !OpensTag(events[i], "meta")
    ensures Run(s, events).ok
    decreases |events|
  {
    if events != [] {
      NoLinkNoMetaNoError(s, events[..|events| - 1]);
    }
  }

  /** The attribute table of two attributes with lower-case names. */
  lemma TwoAttrs(attrs: seq<Attr>, k1: string, v1: Option<string>, k2: string, v2: Option<string>)
    requires attrs == [(k1, v1), (k2, v2)] && IsLowered(k1) && IsLowered(k2)
    ensures AttrsDict(attrs) == map[k1 := v1, k2 := v2]
  {
    LowerAttrsOfLowered(attrs);
    assert attrs[..1][..0] == [];
    assert Dict(attrs[..1]) == map[k1 := v1];
    assert Dict(attrs) == Dict(attrs[..1])[k2 := v2];
  }

  /** A `link rel="canonical"` records its `href`. */
  lemma LinkCanonicalStep(s: Extracted, attrs: seq<Attr>, href: string)
    requires attrs == [("rel", Some("canonical")), ("href", Some(href))]
    ensures OnEvent(s, StartTag("link", attrs)) == Handled(s.(canonicalUrl := Some(href)), true)
  {
    TwoAttrs(attrs, "rel", Some("canonical"), "href", Some(href));
    LowerOfLowered("link");
    LowerOfLowered("canonical");
    assert LoweredOr(AttrsDict(attrs), "rel") == Some("canonical");
  }

  /** A `meta` start tag with `property` "og:url", a `content` and no `name` records the
      content as the Open Graph URL and changes nothing else. */
  lemma MetaOgUrlStep(s: Extracted, tag: string, attrs: seq<Attr>, content: string)
    requires Lower(tag) == "meta"
    requires Get(AttrsDict(attrs), "property") == Some("og:url") && Get(AttrsDict(attrs), "content") == Some(content)
    requires "name" !in AttrsDict(attrs)
    ensures OnEvent(s, StartTag(tag, attrs)) == Handled(s.(ogUrl := Some(content)), true)
  {
    assert LoweredOr(AttrsDict(attrs), "name") == Some("");
  }

  lemma OpenStep(s: Extracted, tag: string)
    requires tag == "head" || tag == "title"
    ensures OnEvent(s, StartTag(tag, [])) ==
      Handled(if tag == "head" then s.(inHead := true) else s.(inTitle := true), true)
  {
    LowerOfLowered(tag);
  }

  /** `<head><title>Hello World</title><link rel="canonical" href="https://ex.com/a"></head>`:
      the title and the canonical URL are recorded and the parser is outside `head` again. */
  lemma HeadExample(events: seq<Event>)
    requires events == [
        StartTag("head", []), StartTag("title", []), Data("Hello World"), EndTag("title"),
        StartTag("link", [("rel", Some("canonical")), ("href", Some("https://ex.com/a"))]),
        EndTag("head")]
    ensures var r := Run(Initial, events);
      r.ok && r.state.title == Some("Hello World") && r.state.canonicalUrl == Some("https://ex.com/a")
      && !r.state.inHead && !r.state.inTitle
  {
    var titled := Initial.(inHead := true, title := Some("Hello World"));
    HeadTitleEvents(events[..4], "Hello World");
    LinkEvents(titled, events[4..], "https://ex.com/a");
    RunAppend(Initial, events[..4], events[4..]);
    assert events[..4] + events[4..] == events;
  }

  /** `<head><title>t</title>`: inside `head`, title recorded, `title` closed again. */
  lemma HeadTitleEvents(events: seq<Event>, t: string)
    requires events == [StartTag("head", []), StartTag("title", []), Data(t), EndTag("title")]
    ensures Run(Initial, events) == Handled(Initial.(inHead := true, title := Some(t)), true)
  {
    var s1 := Initial.(inHead := true);
    var s2 := s1.(inTitle := true);
    var s3 := s2.(title := Some(t));
    OpenStep(Initial, events[0].tag);
    OpenStep(s1, events[1].tag);
    RunUnfold(Initial, events);
    RunUnfold(s1, events[1..]);
    RunUnfold(s2, events[2..]);
    RunUnfold(s3, events[3..]);
    assert events[4..] == [];
  }

  /** A canonical `link` and `</head>`. */
  lemma LinkEvents(s: Extracted, events: seq<Event>, href: string)
    requires events == [StartTag("link", [("rel", Some("canonical")), ("href", Some(href))]), EndTag("head")]
    ensures Run(s, events) == Handled(s.(canonicalUrl := Some(href), inHead := false), true)
  {
    var s1 := s.(canonicalUrl := Some(href));
    LinkCanonicalStep(s, events[0].attrs, href);
    RunUnfold(s, events);
    RunUnfold(s1, events[1..]);
    assert events[2..] == [];
  }

  /** A `title` in the body is ignored: `<body><title>Ignored</title></body>`. */
  lemma BodyTitleExample()
    ensures Run(Initial, [StartTag("body", []), StartTag("title", []), Data("Ignored"), EndTag("title"), EndTag("body")]).state.title == None
  {
    var events := [StartTag("body", []), StartTag("title", []), Data("Ignored"), EndTag("title"), EndTag("body")];
    assert forall i :: 0 <= i < |events| ==> !OpensTag(events[i], "head");
    NoHeadNoTitle(Initial, events);
  }

  /** `handle_endtag` compares the name verbatim: the call `handle_endtag("HEAD")` leaves the parser inside `head`. */
  lemma EndTagVerbatim(s: Extracted)
    requires s.inHead
    ensures OnEndTag(s, "HEAD").inHead
  {
  }

  lemma LowerAttrsOfLowered(attrs: seq<Attr>)
    requires forall i :: 0 <= i < |attrs| ==> IsLowered(attrs[i].0)
    ensures LowerAttrs(attrs) == attrs
  {
    forall i | 0 <= i < |attrs| ensures Lower(attrs[i].0) == attrs[i].0 {
      LowerOfLowered(attrs[i].0);
    }
  }

  /** Run seen from the front: the first event, then the rest. */
  lemma RunUnfold(s: Extracted, events: seq<Event>)
    requires events != []
    ensures Run(s, events) == (var h := OnEvent(s, events[0]); if h.ok then Run(h.state, events[1..]) else h)
  {
    RunAppend(s, [events[0]], events[1..]);
    assert [events[0]] + events[1..] == events;
    assert [events[0]][..0] == [];
  }

  /** The parser object of cuphtmlparser.py. */
  class CupHtmlParser {
    var canonicalUrl: Option<string>
    var ogUrl: Option<string>
    var ogTitle: Option<string>
    var inTitle: bool
    var inHead: bool
    var title: Option<string>
    var description: Option<string>

    ghost function State(): Extracted
      reads this
    {
      Extracted(canonicalUrl, ogUrl, ogTitle, inTitle, inHead, title, description)
    }

    /** All five outputs absent, both flags down. */
    constructor ()
      ensures State() == Initial
    {
      canonicalUrl, ogUrl, ogTitle := None, None, None;
      inTitle, inHead := false, false;
      title, description := None, None;
    }

    method HandleStartTag(tag: string, attrs: seq<Attr>) returns (ok: bool)
      modifies this
      ensures Handled(State(), ok) == OnStartTag(old(State()), tag, attrs)
    {
      var t := Lower(tag);
      var attrsDict := Dict(LowerAttrs(attrs));
      assert attrsDict == AttrsDict(attrs);
      if t == "link" {
        var rel := GetOr(attrsDict, "rel", "");
        if rel.None? {
          return false;
        }
        if Lower(rel.value) == "canonical" {
          canonicalUrl := Get(attrsDict, "href");
        }
      }
      if t == "meta" {
        if Get(attrsDict, "property") == Some("og:url") {
          ogUrl := Get(attrsDict, "content");
        }
        if Get(attrsDict, "property") == Some("og:title") {
          ogTitle := Get(attrsDict, "content");
        }
        var name := GetOr(attrsDict, "name", "");
        if name.None? {
          return false;
        }
        if Lower(name.value) == "description" {
          description := Get(attrsDict, "content");
        }
      }
      if t == "head" {
        inHead := true;
      }
      if t == "title" {
        inTitle := true;
      }
      ok := true;
    }

    method HandleEndTag(tag: string)
      modifies this
      ensures State() == OnEndTag(old(State()), tag)
    {
      if tag == "head" {
        inHead := false;
      }
      if tag == "title" {
        inTitle := false;
      }
    }

    method HandleData(data: string)
      modifies this
      ensures State() == OnData(old(State()), data)
    {
      if inTitle && inHead {
        title := Some(data);
      }
    }

    /** HTMLParser's dispatch of a document's events to the handlers; an exception in a
        handler ends the feed. */
    method Feed(events: seq<Event>) returns (ok: bool)
      modifies this
      ensures Handled(State(), ok) == Run(old(State()), events)
    {
      ok := true;
      var i := 0;
      while i < |events| && ok
        invariant 0 <= i <= |events|
        decreases |events| - i
        invariant Handled(State(), ok) == Run(old(State()), events[..i])
      {
        match events[i] {
          case StartTag(tag, attrs) =>
            ok := HandleStartTag(tag, attrs);
          case EndTag(tag) =>
            HandleEndTag(tag);
          case Data(data) =>
            HandleData(data);
        }
        assert events[..i + 1][..i] == events[..i];
        i := i + 1;
      }
      if ok {
        assert events[..i] == events;
      } else {
        RunAppend(old(State()), events[..i], events[i..]);
        assert events[..i] + events[i..] == events;
      }
    }
  }
}
