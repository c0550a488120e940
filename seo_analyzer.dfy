/** The SEO scoring engine (`analyzeSEO` in Backend/services/seoAnalyzer.ts) once the page has been
    fetched and parsed: title and description evaluation, Open Graph and Twitter tag collection with
    placeholder injection for missing required tags, the other technical tags, the meta-tags category
    score, the overall score and the three recommendation buckets.

    The specification is given by pure functions (`TitleFinding`, `SocialTags`, `Analyze`, ...);
    the methods (`EvaluateTitle`, `CollectSocialTags`, `AnalyzeSeo`, ...) follow the source's
    step-by-step code and are proved to compute exactly those functions. */
module SeoAnalyzer {
  import opened Strings
  import opened SeoTypes

  /** A `(property or name, content)` pair of a `meta` element, as the parser reads it
      (a missing attribute reads as the empty string). */
  datatype Attr = Attr(key: string, content: string)

  /** What the engine reads from the parsed document. */
  datatype Page = Page(
    title: string,        // text of <title>, already trimmed
    description: string,  // content of meta[name="description"]
    og: seq<Attr>,        // meta[property^="og:"] in document order
    twitter: seq<Attr>,   // meta[name^="twitter:"] in document order
    viewport: string,     // content of meta[name="viewport"]
    robots: string,       // content of meta[name="robots"]
    canonical: string,    // href of link[rel="canonical"]
    lang: string)         // lang attribute of <html>

  const TitleMin := 30
  const TitleMax := 60
  const DescriptionMin := 120
  const DescriptionMax := 160

  // The longer messages are written as two literals joined, which is the same string; the
  // shorter pieces keep the verifier's reasoning about their characters small.
  const MissingTitle := "Missing title tag"
  const TitleTooShort := "Title is too short" + " (less than 30 characters)"
  const TitleTooLong := "Title is too long" + " (more than 60 characters)"
  const TitleOptimal := "Optimal length" + " (between 30-60 characters)"
  const BrandSeparatorNote := "Contains brand separator" + ", good for SEO"

  const MissingDescription := "Missing meta description"
  const DescriptionTooShort := "Description is too short" + " (less than 120 characters)"
  const DescriptionTooLong := "Description is too long" + " (more than 160 characters)"
  const DescriptionGoodLength := "Good length" + " (between 120-160 characters)"
  const CallToActionNote := "Contains call-to-action"
  const NoCallToActionNote := "Missing call-to-action"

  const NotFound := "Not found"

  const RequiredOg: seq<string> := ["og:title", "og:description", "og:image", "og:url", "og:type"]
  const RequiredTwitter: seq<string> :=
    ["twitter:card", "twitter:title", "twitter:description", "twitter:image", "twitter:site"]

  const AddTitle := "Add a title tag to your page"
  const AddDescription := "Add a meta description to your page"
  const OptimizeTitle := "Optimize your title tag length (aim for 50-60 characters)"
  const OptimizeDescription := "Optimize your meta description length (aim for 150-160 characters)"
  const AddKeyword := "Include your primary keyword in the meta description"

  const ContentPercentage := 67
  const PerformancePercentage := 42

  /** `calculateScore`: the 80/50 status rule. */
  function CalculateScore(percentage: int): (s: Status)
    ensures s == Success <==> percentage >= 80
    ensures s == Warning <==> 50 <= percentage < 80
    ensures s == Error <==> percentage < 50
  {
    if percentage >= 80 then Success
    else if percentage >= 50 then Warning
    else Error
  }

  predicate HasScheme(url: string)
  {
    "http://" <= url || "https://" <= url
  }

  /** A url without an `http://` or `https://` prefix gets `https://` in front. */
  function NormalizeUrl(url: string): (r: string)
  {
    if HasScheme(url) then url else "https://" + url
  }

  // ---------------------------------------------------------------- title and description

  predicate HasBrandSeparator(title: string)
  {
    Contains(title, "|") || Contains(title, "-") || Contains(title, "\U{2014}")
  }

  predicate HasCallToAction(description: string)
  {
    Contains(description, "call to action") || Contains(description, "learn more") ||
    Contains(description, "discover") || Contains(description, "find out")
  }

  function TitleStatus(title: string): Status
  {
    if title == "" then Error
    else if |title| < TitleMin || |title| > TitleMax then Warning
    else Success
  }

  function TitleLengthNote(length: nat): string
  {
    if length < TitleMin then TitleTooShort
    else if length > TitleMax then TitleTooLong
    else TitleOptimal
  }

  /** The title finding of lines 30-53. */
  function TitleFinding(title: string): TextFinding
  {
    TextFinding(title, |title|, TitleStatus(title),
      if title == "" then [MissingTitle]
      else [TitleLengthNote(|title|)] + (if HasBrandSeparator(title) then [BrandSeparatorNote] else []))
  }

  function DescriptionStatus(description: string): Status
  {
    if description == "" then Error
    else if |description| < DescriptionMin || |description| > DescriptionMax then Warning
    else Success
  }

  function DescriptionLengthNote(length: nat): string
  {
    if length < DescriptionMin then DescriptionTooShort
    else if length > DescriptionMax then DescriptionTooLong
    else DescriptionGoodLength
  }

  /** The description finding of lines 56-84. */
  function DescriptionFinding(description: string): TextFinding
  {
    TextFinding(description, |description|, DescriptionStatus(description),
      if description == "" then [MissingDescription]
      else [DescriptionLengthNote(|description|),
            if HasCallToAction(description) then CallToActionNote else NoCallToActionNote])
  }

  method EvaluateTitle(title: string) returns (f: TextFinding)
    ensures f == TitleFinding(title)
  {
    var status := Success;
    var feedback: seq<string> := [];
    if title == "" {
      status := Error;
      feedback := feedback + [MissingTitle];
    } else {
      if |title| < TitleMin {
        status := Warning;
        feedback := feedback + [TitleTooShort];
      } else if |title| > TitleMax {
        status := Warning;
        feedback := feedback + [TitleTooLong];
      } else {
        feedback := feedback + [TitleOptimal];
      }
      if Contains(title, "|") || Contains(title, "-") || Contains(title, "\U{2014}") {
        feedback := feedback + [BrandSeparatorNote];
      }
    }
    f := TextFinding(title, |title|, status, feedback);
  }

  method EvaluateDescription(description: string) returns (f: TextFinding)
    ensures f == DescriptionFinding(description)
  {
    var status := Success;
    var feedback: seq<string> := [];
    if description == "" {
      status := Error;
      feedback := feedback + [MissingDescription];
    } else {
      if |description| < DescriptionMin {
        status := Warning;
        feedback := feedback + [DescriptionTooShort];
      } else if |description| > DescriptionMax {
        status := Warning;
        feedback := feedback + [DescriptionTooLong];
      } else {
        feedback := feedback + [DescriptionGoodLength];
      }
      if Contains(description, "call to action") || Contains(description, "learn more") ||
         Contains(description, "discover") || Contains(description, "find out") {
        feedback := feedback + [CallToActionNote];
      } else {
        feedback := feedback + [NoCallToActionNote];
      }
    }
    f := TextFinding(description, |description|, status, feedback);
  }

  // ---------------------------------------------------------------- tag lists

  /** A discovered social tag: success iff its content is non-empty. */
  function FoundTag(a: Attr): MetaTag
  {
    MetaTag(a.key, a.content, if a.content != "" then Success else Error)
  }

  /** An entry of the other-tags list: "Not found" and error when the value is empty. */
  function OtherTag(a: Attr): MetaTag
  {
    if a.content != "" then MetaTag(a.key, a.content, Success) else MetaTag(a.key, NotFound, Error)
  }

  function Placeholder(name: string): MetaTag
  {
    MetaTag(name, NotFound, Error)
  }

  /** Applies `f` to every pair, in order. */
  function MapTags(attrs: seq<Attr>, f: Attr -> MetaTag): seq<MetaTag>
  {
    if attrs == [] then [] else MapTags(attrs[..|attrs| - 1], f) + [f(attrs[|attrs| - 1])]
  }

  /** The placeholder loop: every required name, in order, that the list (as it grows) does not
      yet hold is appended as a placeholder. */
  function InjectMissing(tags: seq<MetaTag>, required: seq<string>): seq<MetaTag>
  {
    if required == [] then tags
    else
      var done := InjectMissing(tags, required[..|required| - 1]);
      var name := required[|required| - 1];
      if HasName(done, name) then done else done + [Placeholder(name)]
  }

  /** The required names that `tags` lacks, in required order. */
  function MissingNames(tags: seq<MetaTag>, required: seq<string>): seq<string>
  {
    if required == [] then []
    else
      var rest := MissingNames(tags, required[..|required| - 1]);
      var name := required[|required| - 1];
      if HasName(tags, name) then rest else rest + [name]
  }

  function Placeholders(names: seq<string>): seq<MetaTag>
  {
    if names == [] then [] else Placeholders(names[..|names| - 1]) + [Placeholder(names[|names| - 1])]
  }

  /** The Open Graph or Twitter list: discovered tags, then placeholders. */
  function SocialTags(attrs: seq<Attr>, required: seq<string>): seq<MetaTag>
  {
    InjectMissing(MapTags(attrs, FoundTag), required)
  }

  /** The four fixed other tags, in their fixed order. */
  function OtherAttrs(p: Page): seq<Attr>
  {
    [Attr("viewport", p.viewport), Attr("robots", p.robots), Attr("canonical", p.canonical), Attr("language", p.lang)]
  }

  method CollectSocialTags(attrs: seq<Attr>, required: seq<string>) returns (tags: seq<MetaTag>)
    ensures tags == SocialTags(attrs, required)
  {
    tags := [];
    var i := 0;
    while i < |attrs|
      invariant 0 <= i <= |attrs|
      invariant tags == MapTags(attrs[..i], FoundTag)
    {
      var content := attrs[i].content;
      tags := tags + [MetaTag(attrs[i].key, content, if content != "" then Success else Error)];
      assert attrs[..i + 1][..i] == attrs[..i];
      i := i + 1;
    }
    assert attrs[..|attrs|] == attrs;
    ghost var discovered := tags;
    var j := 0;
    while j < |required|
      invariant 0 <= j <= |required|
      invariant tags == InjectMissing(discovered, required[..j])
    {
      var name := required[j];
      if !(exists k :: 0 <= k < |tags| && tags[k].name == name) {
        tags := tags + [MetaTag(name, NotFound, Error)];
      }
      assert required[..j + 1][..j] == required[..j];
      j := j + 1;
    }
    assert required[..|required|] == required;
  }

  method CollectOtherTags(extracted: seq<Attr>) returns (tags: seq<MetaTag>)
    ensures tags == MapTags(extracted, OtherTag)
  {
    tags := [];
    var i := 0;
    while i < |extracted|
      invariant 0 <= i <= |extracted|
      invariant tags == MapTags(extracted[..i], OtherTag)
    {
      var content := extracted[i].content;
      tags := tags + [MetaTag(extracted[i].key, if content != "" then content else NotFound,
                              if content != "" then Success else Error)];
      assert extracted[..i + 1][..i] == extracted[..i];
      i := i + 1;
    }
    assert extracted[..|extracted|] == extracted;
  }

  function MetaTagsOf(p: Page): MetaTagsReport
  {
    MetaTagsReport(TitleFinding(p.title), DescriptionFinding(p.description),
      SocialTags(p.og, RequiredOg), SocialTags(p.twitter, RequiredTwitter), MapTags(OtherAttrs(p), OtherTag))
  }

  // ---------------------------------------------------------------- scores

  /** `Math.round(100 * s / c)`, rounding halves up, in exact arithmetic. */
  function RoundedPercentage(s: nat, c: nat): int
    requires c > 0
  {
    (200 * s + c) / (2 * c)
  }

  /** `Math.round((a + b + c) / 3)` in exact arithmetic. */
  function RoundedMean3(a: int, b: int, c: int): int
  {
    (2 * (a + b + c) + 3) / 6
  }

  /** Title, description and every tag of the three lists. */
  function TotalCount(m: MetaTagsReport): nat
  {
    1 + 1 + |m.ogTags| + |m.twitterTags| + |m.otherTags|
  }

  /** Title and description count unless in error; tags count when successful. */
  function SuccessCount(m: MetaTagsReport): nat
  {
    (if m.title.status != Error then 1 else 0) + (if m.description.status != Error then 1 else 0) +
    CountSuccess(m.ogTags) + CountSuccess(m.twitterTags) + CountSuccess(m.otherTags)
  }

  function MetaTagsCategory(m: MetaTagsReport): CategoryScore
  {
    var percentage := RoundedPercentage(SuccessCount(m), TotalCount(m));
    CategoryScore("Meta Tags", SuccessCount(m), percentage, CalculateScore(percentage))
  }

  /** The fixed mock score of the content category. */
  function ContentCategory(): CategoryScore
  {
    CategoryScore("Content", ContentPercentage, ContentPercentage, CalculateScore(ContentPercentage))
  }

  /** The fixed mock score of the performance category. */
  function PerformanceCategory(): CategoryScore
  {
    CategoryScore("Performance", PerformancePercentage, PerformancePercentage, CalculateScore(PerformancePercentage))
  }

  /** `RoundedPercentage(s, c)` is 100 * s / c rounded half up. */
  lemma RoundedPercentageRounds(s: nat, c: nat)
    requires c > 0
    ensures 2 * c * RoundedPercentage(s, c) <= 200 * s + c < 2 * c * (RoundedPercentage(s, c) + 1)
  {
  }

  lemma RoundedPercentageRange(s: nat, c: nat)
    requires 0 < c && s <= c
    ensures 0 <= RoundedPercentage(s, c) <= 100
  {
    var r := RoundedPercentage(s, c);
    RoundedPercentageRounds(s, c);
    assert 200 * s + c <= 201 * c by { MulMonotone(200, s, c); }
    if r > 100 {
      MulMonotone(2 * c, 101, r);
      assert false;
    }
  }

  lemma MulMonotone(k: nat, a: int, b: int)
    requires a <= b
    ensures k * a <= k * b
  {
  }

  /** The meta-tags category: its score is the number of successes, its percentage the share of
      successes among all entries rounded half up, hence within 0..100, and its status follows the
      80/50 rule. */
  method ScoreMetaTags(m: MetaTagsReport) returns (score: CategoryScore)
    ensures score.name == "Meta Tags" && score.score == SuccessCount(m)
    ensures 0 <= score.percentage <= 100
    ensures 2 * TotalCount(m) * score.percentage <= 200 * SuccessCount(m) + TotalCount(m)
                                                 < 2 * TotalCount(m) * (score.percentage + 1)
    ensures score.status == CalculateScore(score.percentage)
    ensures score == MetaTagsCategory(m)
  {
    var count := 1 + 1 + |m.ogTags| + |m.twitterTags| + |m.otherTags|;
    var successful := (if m.title.status != Error then 1 else 0) + (if m.description.status != Error then 1 else 0) +
                      CountSuccess(m.ogTags) + CountSuccess(m.twitterTags) + CountSuccess(m.otherTags);
    CountSuccessBound(m.ogTags);
    CountSuccessBound(m.twitterTags);
    CountSuccessBound(m.otherTags);
    var percentage := (200 * successful + count) / (2 * count);
    assert percentage == RoundedPercentage(successful, count);
    RoundedPercentageRounds(successful, count);
    RoundedPercentageRange(successful, count);
    score := CategoryScore("Meta Tags", successful, percentage, CalculateScore(percentage));
  }

  // ---------------------------------------------------------------- recommendations

  function OgRecommendation(name: string): string
  {
    "Add the " + name + " Open Graph tag for better social sharing"
  }

  function TwitterRecommendation(name: string): string
  {
    "Add the " + name + " Twitter Card tag for better Twitter sharing"
  }

  function AddTagRecommendation(name: string): string
  {
    "Add the " + name + " tag to your page"
  }

  function ConsiderTagRecommendation(name: string): string
  {
    "Consider adding the " + name + " tag to your page"
  }

  function OgAdvice(t: MetaTag): seq<string>
  {
    if t.status == Error && (t.name == "og:title" || t.name == "og:description" || t.name == "og:image")
    then [OgRecommendation(t.name)] else []
  }

  function TwitterAdvice(t: MetaTag): seq<string>
  {
    if t.status == Error && (t.name == "twitter:title" || t.name == "twitter:description" || t.name == "twitter:image")
    then [TwitterRecommendation(t.name)] else []
  }

  function OtherImportantAdvice(t: MetaTag): seq<string>
  {
    if t.status == Error && (t.name == "canonical" || t.name == "robots")
    then [AddTagRecommendation(t.name)] else []
  }

  function OtherSuggestedAdvice(t: MetaTag): seq<string>
  {
    if t.status == Error && !(t.name == "canonical" || t.name == "robots")
    then [ConsiderTagRecommendation(t.name)] else []
  }

  /** The messages `f` gives for each tag, in list order. */
  function FlatMap(tags: seq<MetaTag>, f: MetaTag -> seq<string>): seq<string>
  {
    if tags == [] then [] else FlatMap(tags[..|tags| - 1], f) + f(tags[|tags| - 1])
  }

  function Critical(m: MetaTagsReport): seq<string>
  {
    (if m.title.status == Error then [AddTitle] else []) +
    (if m.description.status == Error then [AddDescription] else [])
  }

  function Important(m: MetaTagsReport): seq<string>
  {
    (if m.title.status == Warning then [OptimizeTitle] else []) +
    (if m.description.status == Warning then [OptimizeDescription] else []) +
    FlatMap(m.ogTags, OgAdvice) + FlatMap(m.twitterTags, TwitterAdvice) + FlatMap(m.otherTags, OtherImportantAdvice)
  }

  predicate MentionsKeyword(description: string)
  {
    Contains(ToLowerAscii(description), "keyword")
  }

  function Suggested(m: MetaTagsReport): seq<string>
  {
    FlatMap(m.otherTags, OtherSuggestedAdvice) +
    (if !MentionsKeyword(m.description.content) then [AddKeyword] else [])
  }

  /** The `ogTags.forEach` loop of the recommendations. */
  method AdviseOg(ogTags: seq<MetaTag>) returns (important: seq<string>)
    ensures important == FlatMap(ogTags, OgAdvice)
  {
    important := [];
    var i := 0;
    while i < |ogTags|
      invariant 0 <= i <= |ogTags|
      invariant important == FlatMap(ogTags[..i], OgAdvice)
    {
      var tag := ogTags[i];
      if tag.status == Error && (tag.name == "og:title" || tag.name == "og:description" || tag.name == "og:image") {
        important := important + [OgRecommendation(tag.name)];
      }
      assert ogTags[..i + 1][..i] == ogTags[..i];
      i := i + 1;
    }
    assert ogTags[..i] == ogTags;
  }

  /** The `twitterTags.forEach` loop of the recommendations. */
  method AdviseTwitter(twitterTags: seq<MetaTag>) returns (important: seq<string>)
    ensures important == FlatMap(twitterTags, TwitterAdvice)
  {
    important := [];
    var i := 0;
    while i < |twitterTags|
      invariant 0 <= i <= |twitterTags|
      invariant important == FlatMap(twitterTags[..i], TwitterAdvice)
    {
      var tag := twitterTags[i];
      if tag.status == Error && (tag.name == "twitter:title" || tag.name == "twitter:description" || tag.name == "twitter:image") {
        important := important + [TwitterRecommendation(tag.name)];
      }
      assert twitterTags[..i + 1][..i] == twitterTags[..i];
      i := i + 1;
    }
    assert twitterTags[..i] == twitterTags;
  }

  /** The `otherTags.forEach` loop of the recommendations. */
  method AdviseOther(otherTags: seq<MetaTag>) returns (important: seq<string>, suggested: seq<string>)
    ensures important == FlatMap(otherTags, OtherImportantAdvice)
    ensures suggested == FlatMap(otherTags, OtherSuggestedAdvice)
  {
    important, suggested := [], [];
    var i := 0;
    while i < |otherTags|
      invariant 0 <= i <= |otherTags|
      invariant important == FlatMap(otherTags[..i], OtherImportantAdvice)
      invariant suggested == FlatMap(otherTags[..i], OtherSuggestedAdvice)
    {
      var tag := otherTags[i];
      if tag.status == Error {
        if tag.name == "canonical" || tag.name == "robots" {
          important := important + [AddTagRecommendation(tag.name)];
        } else {
          suggested := suggested + [ConsiderTagRecommendation(tag.name)];
        }
      }
      assert otherTags[..i + 1][..i] == otherTags[..i];
      i := i + 1;
    }
    assert otherTags[..i] == otherTags;
  }

  /** Lines 200-240: the three buckets, filled in evaluation order. */
  method BuildRecommendations(m: MetaTagsReport) returns (r: Recommendations)
    ensures r == Recommendations(Critical(m), Important(m), Suggested(m))
  {
    var critical: seq<string> := [];
    var important: seq<string> := [];
    var suggested: seq<string> := [];
    if m.title.status == Error {
      critical := critical + [AddTitle];
    } else if m.title.status == Warning {
      important := important + [OptimizeTitle];
    }
    if m.description.status == Error {
      critical := critical + [AddDescription];
    } else if m.description.status == Warning {
      important := important + [OptimizeDescription];
    }
    assert critical == Critical(m);
    assert important == (if m.title.status == Warning then [OptimizeTitle] else []) +
                         (if m.description.status == Warning then [OptimizeDescription] else []);
    var og := AdviseOg(m.ogTags);
    var twitter := AdviseTwitter(m.twitterTags);
    var otherImportant, otherSuggested := AdviseOther(m.otherTags);
    important := important + og + twitter + otherImportant;
    assert important == Important(m);
    suggested := suggested + otherSuggested;
    if !Contains(ToLowerAscii(m.description.content), "keyword") {
      suggested := suggested + [AddKeyword];
    }
    assert suggested == Suggested(m);
    r := Recommendations(critical, important, suggested);
  }

  // ---------------------------------------------------------------- the whole analysis

  /** The analysis result for a page fetched from `url`, stamped with `timestamp`. */
  function Analyze(p: Page, url: string, timestamp: string): AnalysisResult
  {
    var m := MetaTagsOf(p);
    var meta := MetaTagsCategory(m);
    AnalysisResult(
      NormalizeUrl(url),
      RoundedMean3(meta.percentage, ContentCategory().percentage, PerformanceCategory().percentage),
      timestamp,
      m,
      Categories(meta, ContentCategory(), PerformanceCategory()),
      Recommendations(Critical(m), Important(m), Suggested(m)))
  }

  /** Lines 29-160: the meta-tags report the engine assembles from the parsed page. */
  method CollectMetaTags(p: Page) returns (m: MetaTagsReport)
    ensures m == MetaTagsOf(p)
  {
    var title := EvaluateTitle(p.title);
    var description := EvaluateDescription(p.description);
    var ogTags := CollectSocialTags(p.og, RequiredOg);
    var twitterTags := CollectSocialTags(p.twitter, RequiredTwitter);
    var otherTags := CollectOtherTags(
      [Attr("viewport", p.viewport), Attr("robots", p.robots), Attr("canonical", p.canonical), Attr("language", p.lang)]);
    m := MetaTagsReport(title, description, ogTags, twitterTags, otherTags);
  }

  /** `analyzeSEO` after the fetch: `p` is what the parser read from the page at `NormalizeUrl(url)`. */
  method AnalyzeSeo(url: string, p: Page, timestamp: string) returns (r: AnalysisResult)
    ensures r == Analyze(p, url, timestamp)
  {
    var target := url;
    if !("http://" <= target) && !("https://" <= target) {
      target := "https://" + target;
    }
    var metaTags := CollectMetaTags(p);
    var metaTagsScore := ScoreMetaTags(metaTags);
    var contentScore := CategoryScore("Content", 67, 67, CalculateScore(67));
    var performanceScore := CategoryScore("Performance", 42, 42, CalculateScore(42));
    var overall := (2 * (metaTagsScore.percentage + contentScore.percentage + performanceScore.percentage) + 3) / 6;
    assert overall == RoundedMean3(metaTagsScore.percentage, ContentCategory().percentage, PerformanceCategory().percentage);

    var recommendations := BuildRecommendations(metaTags);
    r := AnalysisResult(target, overall, timestamp, metaTags,
                        Categories(metaTagsScore, contentScore, performanceScore), recommendations);
  }
}
