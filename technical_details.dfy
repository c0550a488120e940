/** The technical-details panel (Frontend/src/components/technicalDetails.tsx): the HTML head it
    proposes for the analysed page and the SEO checklist. */
module TechnicalDetails {
  import opened Strings
  import opened SeoTypes
  import opened SeoAnalyzer
  import opened SeoAnalyzerProperties

  // The fixed text before and after the generated lines, one literal per line.
  const HtmlHead :=
    "<!DOCTYPE html>\n" + "<html lang=\"en\">\n" + "<head>\n" + "  <meta charset=\"UTF-8\">\n" +
    "  <meta name=\"viewport\" content=\"width=device-width, initial-scale=1.0\">\n"
  const HtmlTail :=
    "  <!-- Other head elements -->\n" + "</head>\n" + "<body>\n" + "  <!-- Page content -->\n" +
    "</body>\n" + "</html>"

  /** A tag is written out when its content is neither empty nor the "Not found" placeholder. */
  predicate Emitted(tag: MetaTag)
  {
    tag.content != "" && tag.content != NotFound
  }

  function TitleLine(content: string): string
  {
    "  <title>" + content + "</title>\n"
  }

  function DescriptionLine(content: string): string
  {
    "  <meta name=\"description\" content=\"" + content + "\">\n"
  }

  function PropertyLine(tag: MetaTag): string
  {
    "  <meta property=\"" + tag.name + "\" content=\"" + tag.content + "\">\n"
  }

  function NameLine(tag: MetaTag): string
  {
    "  <meta name=\"" + tag.name + "\" content=\"" + tag.content + "\">\n"
  }

  function CanonicalLine(content: string): string
  {
    "  <link rel=\"canonical\" href=\"" + content + "\">\n"
  }

  /** What one Open Graph tag contributes. */
  function OgLine(tag: MetaTag): string
  {
    if Emitted(tag) then PropertyLine(tag) else ""
  }

  /** What one Twitter tag contributes. */
  function TwitterLine(tag: MetaTag): string
  {
    if Emitted(tag) then NameLine(tag) else ""
  }

  /** What one other tag contributes: a link for the canonical url, nothing for the language. */
  function OtherLine(tag: MetaTag): string
  {
    if !Emitted(tag) then ""
    else if tag.name == "canonical" then CanonicalLine(tag.content)
    else if tag.name == "language" then ""
    else NameLine(tag)
  }

  /** The contributions of a list of tags, in order. */
  function Lines(tags: seq<MetaTag>, line: MetaTag -> string): string
  {
    if tags == [] then "" else Lines(tags[..|tags| - 1], line) + line(tags[|tags| - 1])
  }

  /** The title and description lines, each only when there is content. */
  function IntroLines(m: MetaTagsReport): string
  {
    (if m.title.content != "" then TitleLine(m.title.content) else "") +
    (if m.description.content != "" then DescriptionLine(m.description.content) else "")
  }

  /** Everything between the fixed head and the fixed tail. */
  function HtmlBody(m: MetaTagsReport): string
  {
    IntroLines(m) + Lines(m.ogTags, OgLine) + Lines(m.twitterTags, TwitterLine) + Lines(m.otherTags, OtherLine)
  }

  /** The whole proposed document. */
  function MetaTagsHtml(m: MetaTagsReport): string
  {
    HtmlHead + HtmlBody(m) + HtmlTail
  }

  /** `generateMetaTagsHtml`: the document is built by appending, list by list. */
  method GenerateMetaTagsHtml(m: MetaTagsReport) returns (html: string)
    ensures html == MetaTagsHtml(m)
  {
    var body := "";
    if m.title.content != "" {
      body := body + TitleLine(m.title.content);
    }
    if m.description.content != "" {
      body := body + DescriptionLine(m.description.content);
    }
    assert body == IntroLines(m);
    body := AppendOgTags(body, m.ogTags);
    body := AppendTwitterTags(body, m.twitterTags);
    body := AppendOtherTags(body, m.otherTags);
    html := HtmlHead + body + HtmlTail;
  }

  /** Appending one more tag's contribution extends the lines by that tag. */
  lemma LinesStep(prefix: string, tags: seq<MetaTag>, line: MetaTag -> string, i: nat, html: string)
    requires i < |tags| && html == prefix + Lines(tags[..i], line)
    ensures html + line(tags[i]) == prefix + Lines(tags[..i + 1], line)
  {
    assert tags[..i + 1][..i] == tags[..i];
  }

  /** The Open Graph loop. */
  method AppendOgTags(prefix: string, tags: seq<MetaTag>) returns (html: string)
    ensures html == prefix + Lines(tags, OgLine)
  {
    html := prefix;
    var i := 0;
    while i < |tags|
      invariant 0 <= i <= |tags|
      invariant html == prefix + Lines(tags[..i], OgLine)
    {
      var tag := tags[i];
      LinesStep(prefix, tags, OgLine, i, html);
      if Emitted(tag) {
        html := html + PropertyLine(tag);
      } else {
        assert html + OgLine(tag) == html;
      }
      i := i + 1;
    }
    assert tags[..|tags|] == tags;
  }

  /** The Twitter loop. */
  method AppendTwitterTags(prefix: string, tags: seq<MetaTag>) returns (html: string)
    ensures html == prefix + Lines(tags, TwitterLine)
  {
    html := prefix;
    var i := 0;
    while i < |tags|
      invariant 0 <= i <= |tags|
      invariant html == prefix + Lines(tags[..i], TwitterLine)
    {
      var tag := tags[i];
      LinesStep(prefix, tags, TwitterLine, i, html);
      if Emitted(tag) {
        html := html + NameLine(tag);
      } else {
        assert html + TwitterLine(tag) == html;
      }
      i := i + 1;
    }
    assert tags[..|tags|] == tags;
  }

  /** The loop over the other tags. */
  method AppendOtherTags(prefix: string, tags: seq<MetaTag>) returns (html: string)
    ensures html == prefix + Lines(tags, OtherLine)
  {
    html := prefix;
    var i := 0;
    while i < |tags|
      invariant 0 <= i <= |tags|
      invariant html == prefix + Lines(tags[..i], OtherLine)
    {
      var tag := tags[i];
      LinesStep(prefix, tags, OtherLine, i, html);
      if Emitted(tag) {
        if tag.name == "canonical" {
          html := html + CanonicalLine(tag.content);
        } else if tag.name == "language" {
          assert html + OtherLine(tag) == html;
        } else {
          html := html + NameLine(tag);
        }
      } else {
        assert html + OtherLine(tag) == html;
      }
      i := i + 1;
    }
    assert tags[..|tags|] == tags;
  }

  // ---------------------------------------------------------------- the checklist

  /** The seven boxes of the SEO checklist. */
  datatype Checklist = Checklist(
    title: bool, description: bool, openGraph: bool, twitterCards: bool,
    canonical: bool, robots: bool, viewport: bool)

  /** `tags.find(tag => tag.name === name)?.status === 'success'` */
  predicate FoundSuccessful(tags: seq<MetaTag>, name: string)
  {
    match FirstNamed(tags, name)
    case None => false
    case Some(t) => t.status == Success
  }

  function ChecklistOf(m: MetaTagsReport): Checklist
  {
    Checklist(
      m.title.status != Error,
      m.description.status != Error,
      CountSuccess(m.ogTags) >= 4,
      CountSuccess(m.twitterTags) >= 3,
      FoundSuccessful(m.otherTags, "canonical"),
      FoundSuccessful(m.otherTags, "robots"),
      FoundSuccessful(m.otherTags, "viewport"))
  }

  /** How many pairs have non-empty content. */
  function NonEmptyCount(attrs: seq<Attr>): nat
  {
    if attrs == [] then 0
    else NonEmptyCount(attrs[..|attrs| - 1]) + (if attrs[|attrs| - 1].content != "" then 1 else 0)
  }

  // ---------------------------------------------------------------- properties of the document

  lemma {:induction false} LinesAppend(a: seq<MetaTag>, b: seq<MetaTag>, line: MetaTag -> string)
    ensures Lines(a + b, line) == Lines(a, line) + Lines(b, line)
  {
    if b != [] {
      assert (a + b)[..|a + b| - 1] == a + b[..|b| - 1];
      LinesAppend(a, b[..|b| - 1], line);
    } else {
      assert a + b == a;
    }
  }

  /** Tags that contribute nothing leave no trace. */
  lemma {:induction false} LinesOfSilent(tags: seq<MetaTag>, line: MetaTag -> string)
    requires forall i :: 0 <= i < |tags| ==> line(tags[i]) == ""
    ensures Lines(tags, line) == ""
  {
    if tags != [] {
      LinesOfSilent(tags[..|tags| - 1], line);
    }
  }

  /** Every tag's contribution occurs in the lines of its list. */
  lemma {:induction false} LinesContain(tags: seq<MetaTag>, line: MetaTag -> string, i: nat)
    requires i < |tags|
    ensures Contains(Lines(tags, line), line(tags[i]))
  {
    var init := tags[..|tags| - 1];
    if i == |tags| - 1 {
      ContainsInfix(Lines(init, line), line(tags[i]), "");
      assert Lines(init, line) + line(tags[i]) + "" == Lines(tags, line);
    } else {
      LinesContain(init, line, i);
      assert init[i] == tags[i];
      ContainsInFront(Lines(init, line), line(tags[|tags| - 1]), line(tags[i]));
    }
  }

  lemma MiddlePartsContained(head: string, intro: string, og: string, tw: string, other: string, tail: string)
    ensures Contains(head + (intro + og + tw + other) + tail, og)
    ensures Contains(head + (intro + og + tw + other) + tail, tw)
  {
    var s := head + (intro + og + tw + other) + tail;
    assert s == (head + intro) + og + (tw + other + tail);
    assert s == (head + intro + og) + tw + (other + tail);
    ContainsInfix(head + intro, og, tw + other + tail);
    ContainsInfix(head + intro + og, tw, other + tail);
  }

  /** The Open Graph and the Twitter lines both lie inside the document. */
  lemma SocialLinesInHtml(m: MetaTagsReport)
    ensures Contains(MetaTagsHtml(m), Lines(m.ogTags, OgLine))
    ensures Contains(MetaTagsHtml(m), Lines(m.twitterTags, TwitterLine))
  {
    MiddlePartsContained(HtmlHead, IntroLines(m), Lines(m.ogTags, OgLine), Lines(m.twitterTags, TwitterLine),
                         Lines(m.otherTags, OtherLine), HtmlTail);
  }

  lemma LineHasContent(t: MetaTag)
    ensures Contains(PropertyLine(t), t.content) && Contains(NameLine(t), t.content)
  {
    ContainsInfix("  <meta property=\"" + t.name + "\" content=\"", t.content, "\">\n");
    ContainsInfix("  <meta name=\"" + t.name + "\" content=\"", t.content, "\">\n");
  }

  /** The content of every written Open Graph or Twitter tag appears in the document, inside
      its own line. */
  lemma EmittedContentAppears(m: MetaTagsReport)
    ensures forall i :: 0 <= i < |m.ogTags| && Emitted(m.ogTags[i]) ==>
              Contains(MetaTagsHtml(m), PropertyLine(m.ogTags[i])) && Contains(MetaTagsHtml(m), m.ogTags[i].content)
    ensures forall i :: 0 <= i < |m.twitterTags| && Emitted(m.twitterTags[i]) ==>
              Contains(MetaTagsHtml(m), NameLine(m.twitterTags[i])) && Contains(MetaTagsHtml(m), m.twitterTags[i].content)
  {
    var html := MetaTagsHtml(m);
    SocialLinesInHtml(m);
    forall i | 0 <= i < |m.ogTags| && Emitted(m.ogTags[i])
      ensures Contains(html, PropertyLine(m.ogTags[i])) && Contains(html, m.ogTags[i].content)
    {
      var t := m.ogTags[i];
      LinesContain(m.ogTags, OgLine, i);
      ContainsTrans(html, Lines(m.ogTags, OgLine), PropertyLine(t));
      LineHasContent(t);
      ContainsTrans(html, PropertyLine(t), t.content);
    }
    forall i | 0 <= i < |m.twitterTags| && Emitted(m.twitterTags[i])
      ensures Contains(html, NameLine(m.twitterTags[i])) && Contains(html, m.twitterTags[i].content)
    {
      var t := m.twitterTags[i];
      LinesContain(m.twitterTags, TwitterLine, i);
      ContainsTrans(html, Lines(m.twitterTags, TwitterLine), NameLine(t));
      LineHasContent(t);
      ContainsTrans(html, NameLine(t), t.content);
    }
  }

  /** The "Not found" placeholders write nothing. */
  lemma PlaceholderLinesSilent(names: seq<string>, line: MetaTag -> string)
    requires line == OgLine || line == TwitterLine
    ensures Lines(Placeholders(names), line) == ""
  {
    PlaceholdersAt(names);
    LinesOfSilent(Placeholders(names), line);
  }

  /** On the engine's Open Graph or Twitter list, the lines written are those of the page's own
      tags: the placeholders for required tags it lacks add nothing. */
  lemma SocialLinesOfPage(attrs: seq<Attr>, required: seq<string>, line: MetaTag -> string)
    requires Distinct(required)
    requires line == OgLine || line == TwitterLine
    ensures Lines(SocialTags(attrs, required), line) == Lines(MapTags(attrs, FoundTag), line)
  {
    var discovered := MapTags(attrs, FoundTag);
    var missing := MissingNames(discovered, required);
    InjectMissingIsAppend(discovered, required);
    LinesAppend(discovered, Placeholders(missing), line);
    PlaceholderLinesSilent(missing, line);
  }

  lemma LinesFour(t0: MetaTag, t1: MetaTag, t2: MetaTag, t3: MetaTag, line: MetaTag -> string)
    ensures Lines([t0, t1, t2, t3], line) == line(t0) + line(t1) + line(t2) + line(t3)
  {
    assert Lines([t0], line) == line(t0) by {
      assert [t0][..0] == [];
    }
    assert Lines([t0, t1], line) == line(t0) + line(t1) by {
      assert [t0, t1][..1] == [t0];
    }
    assert Lines([t0, t1, t2], line) == line(t0) + line(t1) + line(t2) by {
      assert [t0, t1, t2][..2] == [t0, t1];
    }
    assert [t0, t1, t2, t3][..3] == [t0, t1, t2];
  }

  lemma ViewportLine(v: string)
    ensures OtherLine(OtherTag(Attr("viewport", v))) ==
              if v != "" && v != NotFound then NameLine(MetaTag("viewport", v, Success)) else ""
  {
  }

  lemma RobotsLine(v: string)
    ensures OtherLine(OtherTag(Attr("robots", v))) ==
              if v != "" && v != NotFound then NameLine(MetaTag("robots", v, Success)) else ""
  {
  }

  lemma CanonicalTagLine(v: string)
    ensures OtherLine(OtherTag(Attr("canonical", v))) == if v != "" && v != NotFound then CanonicalLine(v) else ""
  {
  }

  lemma LanguageLine(v: string)
    ensures OtherLine(OtherTag(Attr("language", v))) == ""
  {
  }

  /** What the page's technical values should write: a viewport and a robots meta tag and a
      canonical link, each when the page has that value; never the language. */
  function TechnicalLines(p: Page): string
  {
    (if p.viewport != "" && p.viewport != NotFound then NameLine(MetaTag("viewport", p.viewport, Success)) else "") +
    (if p.robots != "" && p.robots != NotFound then NameLine(MetaTag("robots", p.robots, Success)) else "") +
    (if p.canonical != "" && p.canonical != NotFound then CanonicalLine(p.canonical) else "")
  }

  lemma OtherLinesOfPage(p: Page)
    ensures Lines(MetaTagsOf(p).otherTags, OtherLine) == TechnicalLines(p)
  {
    OtherTagsList(p);
    var t0, t1 := OtherTag(Attr("viewport", p.viewport)), OtherTag(Attr("robots", p.robots));
    var t2, t3 := OtherTag(Attr("canonical", p.canonical)), OtherTag(Attr("language", p.lang));
    LinesFour(t0, t1, t2, t3, OtherLine);
    ViewportLine(p.viewport);
    RobotsLine(p.robots);
    CanonicalTagLine(p.canonical);
    LanguageLine(p.lang);
  }

  /** The document proposed for a page: the fixed head; the title and description lines when the
      page has them; one line per Open Graph and per Twitter tag of the page with content, in
      document order (none for the "Not found" placeholders); the technical lines; the fixed tail. */
  lemma MetaTagsHtmlOfPage(p: Page)
    ensures MetaTagsHtml(MetaTagsOf(p)) ==
              HtmlHead +
              ((if p.title != "" then TitleLine(p.title) else "") +
               (if p.description != "" then DescriptionLine(p.description) else "") +
               Lines(MapTags(p.og, FoundTag), OgLine) + Lines(MapTags(p.twitter, FoundTag), TwitterLine) +
               TechnicalLines(p)) +
              HtmlTail
  {
    RequiredListsDistinct();
    SocialLinesOfPage(p.og, RequiredOg, OgLine);
    SocialLinesOfPage(p.twitter, RequiredTwitter, TwitterLine);
    OtherLinesOfPage(p);
    TitleRules(p.title);
    DescriptionRules(p.description);
  }

  /** A page with no title, description or tags gets the bare template. */
  lemma EmptyPageHtml(p: Page)
    requires p.title == "" && p.description == "" && p.og == [] && p.twitter == []
    requires p.viewport == "" && p.robots == "" && p.canonical == ""
    ensures MetaTagsHtml(MetaTagsOf(p)) == HtmlHead + HtmlTail
  {
    MetaTagsHtmlOfPage(p);
    assert MapTags(p.og, FoundTag) == [] && MapTags(p.twitter, FoundTag) == [];
    EmptyMiddle(HtmlHead, HtmlTail);
  }

  lemma EmptyMiddle(a: string, b: string)
    ensures a + "" + b == a + b
  {
    assert a + "" == a;
  }

  // ---------------------------------------------------------------- properties of the checklist

  lemma {:induction false} CountSuccessDiscovered(attrs: seq<Attr>)
    ensures CountSuccess(MapTags(attrs, FoundTag)) == NonEmptyCount(attrs)
  {
    if attrs != [] {
      var init := attrs[..|attrs| - 1];
      CountSuccessDiscovered(init);
      var tags := MapTags(attrs, FoundTag);
      assert tags == MapTags(init, FoundTag) + [FoundTag(attrs[|attrs| - 1])];
      assert tags[..|tags| - 1] == MapTags(init, FoundTag);
    }
  }

  lemma {:induction false} CountSuccessPlaceholders(names: seq<string>)
    ensures CountSuccess(Placeholders(names)) == 0
  {
    if names != [] {
      CountSuccessPlaceholders(names[..|names| - 1]);
      var tags := Placeholders(names);
      assert tags[..|tags| - 1] == Placeholders(names[..|names| - 1]);
    }
  }

  /** On the engine's Open Graph or Twitter list the successes are the page's non-empty tags. */
  lemma CountSuccessSocial(attrs: seq<Attr>, required: seq<string>)
    requires Distinct(required)
    ensures CountSuccess(SocialTags(attrs, required)) == NonEmptyCount(attrs)
  {
    var discovered := MapTags(attrs, FoundTag);
    var missing := MissingNames(discovered, required);
    InjectMissingIsAppend(discovered, required);
    CountSuccessAppend(discovered, Placeholders(missing));
    CountSuccessDiscovered(attrs);
    CountSuccessPlaceholders(missing);
  }

  lemma FirstViewport(p: Page)
    ensures FirstNamed(MetaTagsOf(p).otherTags, "viewport") == Some(OtherTag(Attr("viewport", p.viewport)))
  {
    OtherTagsList(p);
  }

  lemma FirstRobots(p: Page)
    ensures FirstNamed(MetaTagsOf(p).otherTags, "robots") == Some(OtherTag(Attr("robots", p.robots)))
  {
    var tags := MetaTagsOf(p).otherTags;
    OtherTagsList(p);
    assert tags[1..][0].name == "robots";
  }

  lemma FirstCanonical(p: Page)
    ensures FirstNamed(MetaTagsOf(p).otherTags, "canonical") == Some(OtherTag(Attr("canonical", p.canonical)))
  {
    var tags := MetaTagsOf(p).otherTags;
    OtherTagsList(p);
    assert tags[1..][1..][0].name == "canonical";
  }

  /** Each box of the checklist in terms of the page: title, description, canonical url, robots
      and viewport are ticked exactly when present; the Open Graph box when at least four Open
      Graph tags have content, the Twitter box when at least three Twitter tags have. */
  lemma ChecklistOfPage(p: Page)
    ensures var c := ChecklistOf(MetaTagsOf(p));
            && (c.title <==> p.title != "")
            && (c.description <==> p.description != "")
            && (c.openGraph <==> NonEmptyCount(p.og) >= 4)
            && (c.twitterCards <==> NonEmptyCount(p.twitter) >= 3)
            && (c.canonical <==> p.canonical != "")
            && (c.robots <==> p.robots != "")
            && (c.viewport <==> p.viewport != "")
  {
    TitleRules(p.title);
    DescriptionRules(p.description);
    RequiredListsDistinct();
    CountSuccessSocial(p.og, RequiredOg);
    CountSuccessSocial(p.twitter, RequiredTwitter);
    FirstViewport(p);
    FirstRobots(p);
    FirstCanonical(p);
  }
}
