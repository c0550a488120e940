/** What the scoring engine promises, proved about the specification functions of `SeoAnalyzer`. */
module SeoAnalyzerProperties {
  import opened Strings
  import opened SeoTypes
  import opened SeoAnalyzer

  // ---------------------------------------------------------------- url

  /** The result always carries a scheme; a url that has one is kept, others get `https://`;
      normalizing twice changes nothing. */
  lemma NormalizeUrlRules(url: string)
    ensures HasScheme(NormalizeUrl(url))
    ensures HasScheme(url) ==> NormalizeUrl(url) == url
    ensures !HasScheme(url) ==> NormalizeUrl(url) == "https://" + url
    ensures NormalizeUrl(NormalizeUrl(url)) == NormalizeUrl(url)
  {
    if !HasScheme(url) {
      assert "https://" <= "https://" + url;
    }
  }

  // ---------------------------------------------------------------- score status

  /** A higher percentage never gives a worse status. */
  lemma CalculateScoreMonotone(p: int, q: int)
    requires p <= q
    ensures Rank(CalculateScore(p)) <= Rank(CalculateScore(q))
  {
  }

  // ---------------------------------------------------------------- title and description

  lemma TitleRules(t: string)
    ensures TitleFinding(t).content == t && TitleFinding(t).length == |t|
    ensures TitleFinding(t).status == Error <==> t == ""
    ensures t == "" ==> TitleFinding(t).feedback == [MissingTitle]
    ensures t != "" ==> (TitleFinding(t).status == Warning <==> |t| < 30 || |t| > 60)
    ensures t != "" ==> (TitleFinding(t).status == Success <==> 30 <= |t| <= 60)
    ensures t != "" ==> |TitleFinding(t).feedback| == (if HasBrandSeparator(t) then 2 else 1)
    ensures t != "" ==> TitleFinding(t).feedback[0] == TitleLengthNote(|t|)
    ensures t != "" ==> forall k :: 1 <= k < |TitleFinding(t).feedback| ==> TitleFinding(t).feedback[k] == BrandSeparatorNote
    ensures t != "" ==> (BrandSeparatorNote in TitleFinding(t).feedback <==> HasBrandSeparator(t))
  {
  }

  /** The length note names the status: optimal exactly for a success, a warning note otherwise. */
  lemma TitleLengthNoteMatchesStatus(t: string)
    requires t != ""
    ensures TitleLengthNote(|t|) == TitleOptimal <==> TitleFinding(t).status == Success
    ensures TitleLengthNote(|t|) == TitleTooShort <==> |t| < 30
    ensures TitleLengthNote(|t|) == TitleTooLong <==> |t| > 60
  {
  }

  lemma DescriptionRules(d: string)
    ensures DescriptionFinding(d).content == d && DescriptionFinding(d).length == |d|
    ensures DescriptionFinding(d).status == Error <==> d == ""
    ensures d == "" ==> DescriptionFinding(d).feedback == [MissingDescription]
    ensures d != "" ==> (DescriptionFinding(d).status == Warning <==> |d| < 120 || |d| > 160)
    ensures d != "" ==> (DescriptionFinding(d).status == Success <==> 120 <= |d| <= 160)
    ensures d != "" ==> |DescriptionFinding(d).feedback| == 2
    ensures d != "" ==> DescriptionFinding(d).feedback[0] == DescriptionLengthNote(|d|)
    ensures d != "" ==> (DescriptionFinding(d).feedback[1] == CallToActionNote <==> HasCallToAction(d))
    ensures d != "" ==> (DescriptionFinding(d).feedback[1] == NoCallToActionNote <==> !HasCallToAction(d))
  {
  }

  const ShortDescription := "A great tool to " + "learn more" + " about widgets and gadgets for your home."

  /** A 67-character description with "learn more": too short, with a call to action. */
  lemma ShortDescriptionExample()
    ensures DescriptionFinding(ShortDescription).status == Warning
    ensures DescriptionFinding(ShortDescription).feedback == [DescriptionTooShort, CallToActionNote]
  {
    ContainsInfix("A great tool to ", "learn more", " about widgets and gadgets for your home.");
  }

  // ---------------------------------------------------------------- tag lists

  lemma {:induction false} MapTagsAt(attrs: seq<Attr>, f: Attr -> MetaTag)
    ensures |MapTags(attrs, f)| == |attrs|
    ensures forall i :: 0 <= i < |attrs| ==> MapTags(attrs, f)[i] == f(attrs[i])
  {
    if attrs != [] {
      MapTagsAt(attrs[..|attrs| - 1], f);
    }
  }

  lemma {:induction false} PlaceholdersAt(names: seq<string>)
    ensures |Placeholders(names)| == |names|
    ensures forall k :: 0 <= k < |names| ==> Placeholders(names)[k] == Placeholder(names[k])
  {
    if names != [] {
      PlaceholdersAt(names[..|names| - 1]);
    }
  }

  lemma HasNameAppend(a: seq<MetaTag>, b: seq<MetaTag>, name: string)
    ensures HasName(a + b, name) <==> HasName(a, name) || HasName(b, name)
  {
    if HasName(a, name) {
      var i :| 0 <= i < |a| && a[i].name == name;
      assert (a + b)[i].name == name;
    }
    if HasName(b, name) {
      var i :| 0 <= i < |b| && b[i].name == name;
      assert (a + b)[|a| + i].name == name;
    }
    if HasName(a + b, name) {
      var i :| 0 <= i < |a + b| && (a + b)[i].name == name;
      if i < |a| {
        assert a[i].name == name;
      } else {
        assert b[i - |a|].name == name;
      }
    }
  }

  lemma HasNamePlaceholders(names: seq<string>, name: string)
    ensures HasName(Placeholders(names), name) <==> name in names
  {
    PlaceholdersAt(names);
    if name in names {
      var k :| 0 <= k < |names| && names[k] == name;
      assert Placeholders(names)[k].name == name;
    }
  }

  /** A discovered name is one of the page's keys. */
  lemma HasNameDiscovered(attrs: seq<Attr>, name: string)
    ensures HasName(MapTags(attrs, FoundTag), name) <==> exists i :: 0 <= i < |attrs| && attrs[i].key == name
  {
    MapTagsAt(attrs, FoundTag);
    if exists i :: 0 <= i < |attrs| && attrs[i].key == name {
      var i :| 0 <= i < |attrs| && attrs[i].key == name;
      assert MapTags(attrs, FoundTag)[i].name == name;
    }
  }

  /** The missing names are the required names the list lacks, in required order, each once. */
  lemma {:induction false} MissingNamesRules(tags: seq<MetaTag>, required: seq<string>)
    ensures forall n :: n in MissingNames(tags, required) <==> n in required && !HasName(tags, n)
    ensures Distinct(required) ==> Distinct(MissingNames(tags, required))
  {
    if required != [] {
      var init := required[..|required| - 1];
      assert required == init + [required[|required| - 1]];
      MissingNamesRules(tags, init);
    }
  }

  lemma {:induction false} MissingNamesOfEmpty(required: seq<string>)
    ensures MissingNames([], required) == required
  {
    if required != [] {
      var init := required[..|required| - 1];
      MissingNamesOfEmpty(init);
      assert required == init + [required[|required| - 1]];
    }
  }

  /** With distinct required names the placeholder loop appends exactly one placeholder per
      required name the discovered list lacks, in required order. */
  lemma {:induction false} InjectMissingIsAppend(tags: seq<MetaTag>, required: seq<string>)
    requires Distinct(required)
    ensures InjectMissing(tags, required) == tags + Placeholders(MissingNames(tags, required))
  {
    if required != [] {
      var init := required[..|required| - 1];
      var name := required[|required| - 1];
      assert Distinct(init);
      InjectMissingIsAppend(tags, init);
      MissingNamesRules(tags, init);
      assert name !in init;
      HasNameAppend(tags, Placeholders(MissingNames(tags, init)), name);
      HasNamePlaceholders(MissingNames(tags, init), name);
      if !HasName(tags, name) {
        var ms := MissingNames(tags, init);
        assert Placeholders(ms + [name]) == Placeholders(ms) + [Placeholder(name)] by {
          assert (ms + [name])[..|ms + [name]| - 1] == ms;
        }
      }
    }
  }

  /** After the placeholder loop every required name is present and the input is a prefix. */
  lemma {:induction false} InjectMissingCovers(tags: seq<MetaTag>, required: seq<string>)
    ensures tags <= InjectMissing(tags, required)
    ensures forall r :: r in required ==> HasName(InjectMissing(tags, required), r)
  {
    if required != [] {
      var init := required[..|required| - 1];
      var name := required[|required| - 1];
      InjectMissingCovers(tags, init);
      var done := InjectMissing(tags, init);
      forall r | r in required ensures HasName(InjectMissing(tags, required), r) {
        HasNameAppend(done, [Placeholder(name)], r);
        if r != name {
          assert r in init;
        } else if !HasName(done, name) {
          assert [Placeholder(name)][0].name == r;
        }
      }
    }
  }

  lemma RequiredListsDistinct()
    ensures Distinct(RequiredOg) && Distinct(RequiredTwitter)
  {
  }

  /** Discovered tags first, in document order, success iff their content is non-empty; then one
      placeholder per required name that no discovered tag has, in required order; every required
      name is present. */
  lemma SocialTagsShape(attrs: seq<Attr>, required: seq<string>)
    requires Distinct(required)
    ensures var tags := SocialTags(attrs, required);
            var missing := MissingNames(MapTags(attrs, FoundTag), required);
            && |tags| == |attrs| + |missing|
            && (forall i :: 0 <= i < |attrs| ==>
                  tags[i].name == attrs[i].key && tags[i].content == attrs[i].content &&
                  (tags[i].status == Success <==> attrs[i].content != "") &&
                  (tags[i].status == Error <==> attrs[i].content == ""))
            && (forall k :: 0 <= k < |missing| ==> tags[|attrs| + k] == Placeholder(missing[k]))
            && (forall n :: n in missing <==> n in required && forall i :: 0 <= i < |attrs| ==> attrs[i].key != n)
            && Distinct(missing)
            && (forall r :: r in required ==> HasName(tags, r))
  {
    var discovered := MapTags(attrs, FoundTag);
    var missing := MissingNames(discovered, required);
    var tags := SocialTags(attrs, required);
    assert tags == discovered + Placeholders(missing) by {
      InjectMissingIsAppend(discovered, required);
    }
    MapTagsAt(attrs, FoundTag);
    PlaceholdersAt(missing);
    assert Distinct(missing) && forall n :: n in missing <==> n in required && !HasName(discovered, n) by {
      MissingNamesRules(discovered, required);
    }
    forall n ensures HasName(discovered, n) <==> exists i :: 0 <= i < |attrs| && attrs[i].key == n {
      HasNameDiscovered(attrs, n);
    }
    assert forall r :: r in required ==> HasName(tags, r) by {
      InjectMissingCovers(discovered, required);
    }
  }

  /** A set of distinct elements has as many members as the sequence has entries. */
  lemma {:induction false} DistinctCard(s: seq<string>)
    requires Distinct(s)
    ensures |set x | x in s| == |s|
  {
    if s != [] {
      var init := s[..|s| - 1];
      assert Distinct(init);
      DistinctCard(init);
      assert (set x | x in s) == (set x | x in init) + {s[|s| - 1]};
    }
  }

  /** The list has at least one entry per required name. */
  lemma SocialTagsAtLeastRequired(attrs: seq<Attr>, required: seq<string>)
    requires Distinct(required)
    ensures |SocialTags(attrs, required)| >= |required|
  {
    var tags := SocialTags(attrs, required);
    InjectMissingCovers(MapTags(attrs, FoundTag), required);
    var req := set x | x in required;
    assert req <= NameSet(tags) by {
      forall r | r in req ensures r in NameSet(tags) {
        HasNameInNameSet(tags, r);
      }
    }
    DistinctCard(required);
    NameSetBound(tags);
    assert NameSet(tags) == req + (NameSet(tags) - req);
  }

  /** A page without Open Graph tags gets exactly the five placeholders, in required order. */
  lemma NoOgTags()
    ensures SocialTags([], RequiredOg) ==
      [Placeholder("og:title"), Placeholder("og:description"), Placeholder("og:image"),
       Placeholder("og:url"), Placeholder("og:type")]
  {
    assert MapTags([], FoundTag) == [];
    RequiredListsDistinct();
    InjectMissingIsAppend([], RequiredOg);
    MissingNamesOfEmpty(RequiredOg);
    PlaceholdersAt(RequiredOg);
  }

  /** A page without Twitter tags gets exactly the five placeholders, in required order. */
  lemma NoTwitterTags()
    ensures SocialTags([], RequiredTwitter) ==
      [Placeholder("twitter:card"), Placeholder("twitter:title"), Placeholder("twitter:description"),
       Placeholder("twitter:image"), Placeholder("twitter:site")]
  {
    assert MapTags([], FoundTag) == [];
    RequiredListsDistinct();
    InjectMissingIsAppend([], RequiredTwitter);
    MissingNamesOfEmpty(RequiredTwitter);
    PlaceholdersAt(RequiredTwitter);
  }

  /** Exactly four other tags, in fixed order; an empty value reads "Not found" with an error. */
  lemma OtherTagsShape(p: Page)
    ensures var tags := MetaTagsOf(p).otherTags;
            var values := [p.viewport, p.robots, p.canonical, p.lang];
            && |tags| == 4
            && tags[0].name == "viewport" && tags[1].name == "robots"
            && tags[2].name == "canonical" && tags[3].name == "language"
            && (forall i :: 0 <= i < 4 ==>
                  (values[i] == "" ==> tags[i].content == NotFound && tags[i].status == Error) &&
                  (values[i] != "" ==> tags[i].content == values[i] && tags[i].status == Success))
  {
    MapTagsAt(OtherAttrs(p), OtherTag);
  }

  // ---------------------------------------------------------------- scores

  /** The meta-tags total is at least 2 + 5 + 5 + 4, so the percentage never divides by zero. */
  lemma TotalAtLeastSixteen(p: Page)
    ensures TotalCount(MetaTagsOf(p)) >= 16
  {
    RequiredListsDistinct();
    SocialTagsAtLeastRequired(p.og, RequiredOg);
    SocialTagsAtLeastRequired(p.twitter, RequiredTwitter);
    MapTagsAt(OtherAttrs(p), OtherTag);
  }

  lemma SuccessWithinTotal(m: MetaTagsReport)
    ensures SuccessCount(m) <= TotalCount(m)
  {
    CountSuccessBound(m.ogTags);
    CountSuccessBound(m.twitterTags);
    CountSuccessBound(m.otherTags);
  }

  /** A present title or description counts as a success even with a length warning. */
  lemma SuccessCountOfPage(p: Page)
    ensures var m := MetaTagsOf(p);
            SuccessCount(m) == (if p.title != "" then 1 else 0) + (if p.description != "" then 1 else 0) +
                               CountSuccess(m.ogTags) + CountSuccess(m.twitterTags) + CountSuccess(m.otherTags)
  {
  }

  /** The meta-tags percentage lies in [0, 100] and its status follows the 80/50 rule. */
  lemma MetaTagsCategoryRange(p: Page, url: string, timestamp: string)
    ensures var meta := Analyze(p, url, timestamp).categories.metaTags;
            && 0 <= meta.percentage <= 100
            && meta.score == SuccessCount(MetaTagsOf(p))
            && meta.status == CalculateScore(meta.percentage)
  {
    TotalAtLeastSixteen(p);
    SuccessWithinTotal(MetaTagsOf(p));
    RoundedPercentageRange(SuccessCount(MetaTagsOf(p)), TotalCount(MetaTagsOf(p)));
  }

  /** Content and performance are fixed mock values. */
  lemma FixedCategories(p: Page, url: string, timestamp: string)
    ensures Analyze(p, url, timestamp).categories.content == CategoryScore("Content", 67, 67, Warning)
    ensures Analyze(p, url, timestamp).categories.performance == CategoryScore("Performance", 42, 42, Error)
  {
  }

  /** The overall score is the rounded mean of the three category percentages, so it lies in [36, 70]. */
  lemma OverallScoreRange(p: Page, url: string, timestamp: string)
    ensures var r := Analyze(p, url, timestamp);
            && r.score == RoundedMean3(r.categories.metaTags.percentage, r.categories.content.percentage,
                                       r.categories.performance.percentage)
            && 36 <= r.score <= 70
  {
    MetaTagsCategoryRange(p, url, timestamp);
  }

  /** Two runs over the same page differ in the timestamp only. */
  lemma OnlyTimestampVaries(p: Page, url: string, t1: string, t2: string)
    ensures Analyze(p, url, t1).(timestamp := t2) == Analyze(p, url, t2)
  {
  }

  // ---------------------------------------------------------------- recommendations

  lemma {:induction false} FlatMapMember(tags: seq<MetaTag>, f: MetaTag -> seq<string>, x: string)
    ensures x in FlatMap(tags, f) <==> exists i :: 0 <= i < |tags| && x in f(tags[i])
  {
    if tags != [] {
      var init := tags[..|tags| - 1];
      FlatMapMember(init, f, x);
      if exists i :: 0 <= i < |tags| && x in f(tags[i]) {
        var i :| 0 <= i < |tags| && x in f(tags[i]);
        if i < |init| { assert init[i] == tags[i]; }
      }
      if exists i :: 0 <= i < |init| && x in f(init[i]) {
        var i :| 0 <= i < |init| && x in f(init[i]);
        assert tags[i] == init[i];
      }
    }
  }

  lemma FlatMapSnoc(a: seq<MetaTag>, t: MetaTag, f: MetaTag -> seq<string>)
    ensures FlatMap(a + [t], f) == FlatMap(a, f) + f(t)
  {
    assert (a + [t])[..|a + [t]| - 1] == a;
  }

  lemma CriticalRules(m: MetaTagsReport)
    ensures AddTitle in Critical(m) <==> m.title.status == Error
    ensures AddDescription in Critical(m) <==> m.description.status == Error
    ensures |Critical(m)| <= 2
    ensures m.title.status == Error && m.description.status == Error ==> Critical(m) == [AddTitle, AddDescription]
  {
  }

  /** The message names its tag. */
  lemma RecommendationNamesItsTag(a: string, b: string)
    ensures OgRecommendation(a) == OgRecommendation(b) ==> a == b
    ensures TwitterRecommendation(a) == TwitterRecommendation(b) ==> a == b
  {
    if OgRecommendation(a) == OgRecommendation(b) {
      assert |a| == |b|;
      assert a == OgRecommendation(a)[8..8 + |a|];
    }
    if TwitterRecommendation(a) == TwitterRecommendation(b) {
      assert |a| == |b|;
      assert a == TwitterRecommendation(a)[8..8 + |a|];
    }
  }

  /** An Open Graph message for title, description or image appears iff some entry with that name is
      in error. */
  lemma OgAdviceIff(tags: seq<MetaTag>, name: string)
    requires name == "og:title" || name == "og:description" || name == "og:image"
    ensures OgRecommendation(name) in FlatMap(tags, OgAdvice) <==>
            exists i :: 0 <= i < |tags| && tags[i].name == name && tags[i].status == Error
  {
    FlatMapMember(tags, OgAdvice, OgRecommendation(name));
    forall i | 0 <= i < |tags| && OgRecommendation(name) in OgAdvice(tags[i])
      ensures tags[i].name == name && tags[i].status == Error
    {
      RecommendationNamesItsTag(name, tags[i].name);
    }
  }

  /** Every Twitter message is about an entry in error named title, description or image. */
  lemma TwitterAdviceNames(tags: seq<MetaTag>)
    ensures forall x :: x in FlatMap(tags, TwitterAdvice) ==>
              exists i :: 0 <= i < |tags| && tags[i].status == Error && x == TwitterRecommendation(tags[i].name) &&
                          (tags[i].name == "twitter:title" || tags[i].name == "twitter:description" ||
                           tags[i].name == "twitter:image")
  {
    forall x | x in FlatMap(tags, TwitterAdvice)
      ensures exists i :: 0 <= i < |tags| && tags[i].status == Error && x == TwitterRecommendation(tags[i].name) &&
                          (tags[i].name == "twitter:title" || tags[i].name == "twitter:description" ||
                           tags[i].name == "twitter:image")
    {
      FlatMapMember(tags, TwitterAdvice, x);
    }
  }

  /** No Twitter message is ever about the card or the site tag. */
  lemma TwitterAdviceNeverCardOrSite(tags: seq<MetaTag>)
    ensures TwitterRecommendation("twitter:card") !in FlatMap(tags, TwitterAdvice)
    ensures TwitterRecommendation("twitter:site") !in FlatMap(tags, TwitterAdvice)
  {
    FlatMapMember(tags, TwitterAdvice, TwitterRecommendation("twitter:card"));
    FlatMapMember(tags, TwitterAdvice, TwitterRecommendation("twitter:site"));
    forall i | 0 <= i < |tags|
      ensures TwitterRecommendation("twitter:card") !in TwitterAdvice(tags[i])
      ensures TwitterRecommendation("twitter:site") !in TwitterAdvice(tags[i])
    {
      RecommendationNamesItsTag("twitter:card", tags[i].name);
      RecommendationNamesItsTag("twitter:site", tags[i].name);
    }
  }

  /** Without Open Graph tags the page is told to add og:title, og:description and og:image,
      and nothing about og:url or og:type. */
  lemma NoOgTagsAdvice()
    ensures FlatMap(SocialTags([], RequiredOg), OgAdvice) ==
      [OgRecommendation("og:title"), OgRecommendation("og:description"), OgRecommendation("og:image")]
  {
    NoOgTags();
    var p0, p1, p2 := Placeholder("og:title"), Placeholder("og:description"), Placeholder("og:image");
    var p3, p4 := Placeholder("og:url"), Placeholder("og:type");
    FlatMapFive(p0, p1, p2, p3, p4, OgAdvice);
    assert OgAdvice(p3) == [] && OgAdvice(p4) == [];
  }

  /** Without Twitter tags the page is told to add title, description and image, not card or site. */
  lemma NoTwitterTagsAdvice()
    ensures FlatMap(SocialTags([], RequiredTwitter), TwitterAdvice) ==
      [TwitterRecommendation("twitter:title"), TwitterRecommendation("twitter:description"),
       TwitterRecommendation("twitter:image")]
  {
    NoTwitterTags();
    var p0, p1, p2 := Placeholder("twitter:card"), Placeholder("twitter:title"), Placeholder("twitter:description");
    var p3, p4 := Placeholder("twitter:image"), Placeholder("twitter:site");
    FlatMapFive(p0, p1, p2, p3, p4, TwitterAdvice);
    assert TwitterAdvice(p0) == [] && TwitterAdvice(p4) == [];
  }

  lemma FlatMapFour(t0: MetaTag, t1: MetaTag, t2: MetaTag, t3: MetaTag, f: MetaTag -> seq<string>)
    ensures FlatMap([t0, t1, t2, t3], f) == f(t0) + f(t1) + f(t2) + f(t3)
  {
    FlatMapSnoc([], t0, f);
    assert [] + [t0] == [t0];
    FlatMapSnoc([t0], t1, f);
    assert [t0] + [t1] == [t0, t1];
    FlatMapSnoc([t0, t1], t2, f);
    assert [t0, t1] + [t2] == [t0, t1, t2];
    FlatMapSnoc([t0, t1, t2], t3, f);
    assert [t0, t1, t2] + [t3] == [t0, t1, t2, t3];
  }

  lemma FlatMapFive(t0: MetaTag, t1: MetaTag, t2: MetaTag, t3: MetaTag, t4: MetaTag, f: MetaTag -> seq<string>)
    ensures FlatMap([t0, t1, t2, t3, t4], f) == f(t0) + f(t1) + f(t2) + f(t3) + f(t4)
  {
    FlatMapFour(t0, t1, t2, t3, f);
    FlatMapSnoc([t0, t1, t2, t3], t4, f);
    assert [t0, t1, t2, t3] + [t4] == [t0, t1, t2, t3, t4];
  }

  /** The other-tags list, entry by entry. */
  lemma OtherTagsList(p: Page)
    ensures MetaTagsOf(p).otherTags ==
      [OtherTag(Attr("viewport", p.viewport)), OtherTag(Attr("robots", p.robots)),
       OtherTag(Attr("canonical", p.canonical)), OtherTag(Attr("language", p.lang))]
  {
    MapTagsAt(OtherAttrs(p), OtherTag);
  }

  /** Missing robots and canonical are important recommendations, in that order. */
  lemma OtherTagsImportantAdvice(p: Page)
    ensures FlatMap(MetaTagsOf(p).otherTags, OtherImportantAdvice) ==
      (if p.robots == "" then [AddTagRecommendation("robots")] else []) +
      (if p.canonical == "" then [AddTagRecommendation("canonical")] else [])
  {
    OtherTagsList(p);
    var t0, t1 := OtherTag(Attr("viewport", p.viewport)), OtherTag(Attr("robots", p.robots));
    var t2, t3 := OtherTag(Attr("canonical", p.canonical)), OtherTag(Attr("language", p.lang));
    FlatMapFour(t0, t1, t2, t3, OtherImportantAdvice);
    assert OtherImportantAdvice(t0) == [] && OtherImportantAdvice(t3) == [];
  }

  /** Missing viewport and language are suggestions, in that order. */
  lemma OtherTagsSuggestedAdvice(p: Page)
    ensures FlatMap(MetaTagsOf(p).otherTags, OtherSuggestedAdvice) ==
      (if p.viewport == "" then [ConsiderTagRecommendation("viewport")] else []) +
      (if p.lang == "" then [ConsiderTagRecommendation("language")] else [])
  {
    OtherTagsList(p);
    var t0, t1 := OtherTag(Attr("viewport", p.viewport)), OtherTag(Attr("robots", p.robots));
    var t2, t3 := OtherTag(Attr("canonical", p.canonical)), OtherTag(Attr("language", p.lang));
    FlatMapFour(t0, t1, t2, t3, OtherSuggestedAdvice);
    assert OtherSuggestedAdvice(t1) == [] && OtherSuggestedAdvice(t2) == [];
  }

  /** The keyword suggestion comes last, and exactly when the lower-cased description lacks
      "keyword" — also when there is no description at all. */
  lemma KeywordSuggestion(m: MetaTagsReport)
    ensures AddKeyword in Suggested(m) <==> !MentionsKeyword(m.description.content)
    ensures !MentionsKeyword(m.description.content) ==> Suggested(m)[|Suggested(m)| - 1] == AddKeyword
    ensures m.description.content == "" ==> AddKeyword in Suggested(m)
  {
    FlatMapMember(m.otherTags, OtherSuggestedAdvice, AddKeyword);
    forall i | 0 <= i < |m.otherTags| && OtherSuggestedAdvice(m.otherTags[i]) != []
      ensures AddKeyword != OtherSuggestedAdvice(m.otherTags[i])[0]
    {
      var msg := OtherSuggestedAdvice(m.otherTags[i])[0];
      assert msg[|msg| - 1] == 'e';
      assert AddKeyword[|AddKeyword| - 1] == 'n';
    }
    if m.description.content == "" {
      assert ToLowerAscii("") == "";
      EmptyContainsNothing("keyword");
    }
  }
}
