/** The decisions of the meta-tags panel (Frontend/src/components/metaTags.tsx): the status badge
    of the title and description cards, the badge of each tag list, the icon shown beside each
    feedback line and the text shown for an empty title or description. */
module MetaTagsView {
  import opened Strings
  import opened SeoTypes
  import opened SeoAnalyzer
  import opened SeoAnalyzerProperties

  datatype Badge = Excellent | Good | NeedsImprovement

  datatype TagsBadge = Complete | Partial | Missing

  /** `getStatusBadge` */
  function StatusBadge(status: Status): (b: Badge)
    ensures b == Excellent <==> status == Success
    ensures b == Good <==> status == Warning
    ensures b == NeedsImprovement <==> status == Error
  {
    match status
    case Success => Excellent
    case Warning => Good
    case Error => NeedsImprovement
  }

  const ImportantOg: seq<string> := ["og:title", "og:description", "og:image", "og:url"]
  const ImportantTwitter: seq<string> := ["twitter:card", "twitter:title", "twitter:description", "twitter:image"]
  const ImportantOther: seq<string> := ["viewport", "robots", "canonical", "language"]

  const NoTitleFound := "No title tag found"
  const NoDescriptionFound := "No meta description found"

  /** `metaTags.title.content || "No title tag found"` */
  function DisplayTitle(title: string): (r: string)
    ensures title != "" ==> r == title
    ensures r == NoTitleFound <==> title == "" || title == NoTitleFound
  {
    OrElse(title, NoTitleFound)
  }

  /** `metaTags.description.content || "No meta description found"` */
  function DisplayDescription(description: string): (r: string)
    ensures description != "" ==> r == description
    ensures r == NoDescriptionFound <==> description == "" || description == NoDescriptionFound
  {
    OrElse(description, NoDescriptionFound)
  }

  // ---------------------------------------------------------------- list badges

  /** `tags.filter(tag => tag.status === 'success' && important.includes(tag.name)).length` */
  function CountImportantSuccess(tags: seq<MetaTag>, important: seq<string>): (n: nat)
    ensures n <= CountSuccess(tags)
  {
    if tags == [] then 0
    else
      var last := tags[|tags| - 1];
      CountImportantSuccess(tags[..|tags| - 1], important) + (if last.status == Success && last.name in important then 1 else 0)
  }

  /** `getTagsStatusBadge` as written: it compares a count of successful tags, duplicates
      included, with the number of important names. */
  function TagsStatusBadge(tags: seq<MetaTag>, important: seq<string>): TagsBadge
  {
    var found := CountImportantSuccess(tags, important);
    if found == |important| then Complete
    else if found > 0 then Partial
    else Missing
  }

  /** Some tag of that name is successful. */
  predicate HasSuccess(tags: seq<MetaTag>, name: string)
  {
    exists i :: 0 <= i < |tags| && tags[i].name == name && tags[i].status == Success
  }

  /** How many listed names have a successful tag. */
  function FoundNames(tags: seq<MetaTag>, important: seq<string>): (n: nat)
    ensures n <= |important|
  {
    if important == [] then 0
    else
      var name := important[|important| - 1];
      FoundNames(tags, important[..|important| - 1]) + (if HasSuccess(tags, name) then 1 else 0)
  }

  /** The corrected badge: complete when every important name has a successful tag, partial when
      some has, missing when none has. */
  function TagsStatusBadgeByName(tags: seq<MetaTag>, important: seq<string>): TagsBadge
  {
    var found := FoundNames(tags, important);
    if found == |important| then Complete
    else if found > 0 then Partial
    else Missing
  }

  /** The badges of the three tag cards as written. */
  function OgBadge(m: MetaTagsReport): TagsBadge
  {
    TagsStatusBadge(m.ogTags, ImportantOg)
  }

  function TwitterBadge(m: MetaTagsReport): TagsBadge
  {
    TagsStatusBadge(m.twitterTags, ImportantTwitter)
  }

  function OtherBadge(m: MetaTagsReport): TagsBadge
  {
    TagsStatusBadge(m.otherTags, ImportantOther)
  }

  /** The badges of the three tag cards with the corrected count. */
  function OgBadgeFixed(m: MetaTagsReport): TagsBadge
  {
    TagsStatusBadgeByName(m.ogTags, ImportantOg)
  }

  function TwitterBadgeFixed(m: MetaTagsReport): TagsBadge
  {
    TagsStatusBadgeByName(m.twitterTags, ImportantTwitter)
  }

  function OtherBadgeFixed(m: MetaTagsReport): TagsBadge
  {
    TagsStatusBadgeByName(m.otherTags, ImportantOther)
  }

  // ---------------------------------------------------------------- feedback icons

  /** The title feedback icon as written. */
  function TitleFeedbackIcon(feedback: string): Status
  {
    if Contains(feedback, "Optimal") then Success
    else if Contains(feedback, "too short") || Contains(feedback, "too long") then Warning
    else Error
  }

  /** The description feedback icon as written. */
  function DescriptionFeedbackIcon(feedback: string): Status
  {
    if Contains(feedback, "Good length") then Success
    else if Contains(feedback, "too short") || Contains(feedback, "too long") then Warning
    else if Contains(feedback, "Missing call-to-action") then Warning
    else Error
  }

  /** The corrected title icon: the brand-separator note is a positive note. */
  function TitleFeedbackIconFixed(feedback: string): Status
  {
    if Contains(feedback, "Optimal") || Contains(feedback, "Contains brand separator") then Success
    else if Contains(feedback, "too short") || Contains(feedback, "too long") then Warning
    else Error
  }

  /** The corrected description icon: the call-to-action note is a positive note. */
  function DescriptionFeedbackIconFixed(feedback: string): Status
  {
    if Contains(feedback, "Good length") || Contains(feedback, "Contains call-to-action") then Success
    else if Contains(feedback, "too short") || Contains(feedback, "too long") then Warning
    else if Contains(feedback, "Missing call-to-action") then Warning
    else Error
  }

  /** The icons beside the feedback lines of a finding. */
  function TitleIcons(f: TextFinding): (icons: seq<Status>)
    ensures |icons| == |f.feedback|
    ensures forall i :: 0 <= i < |icons| ==> icons[i] == TitleFeedbackIconFixed(f.feedback[i])
  {
    seq(|f.feedback|, i requires 0 <= i < |f.feedback| => TitleFeedbackIconFixed(f.feedback[i]))
  }

  function DescriptionIcons(f: TextFinding): (icons: seq<Status>)
    ensures |icons| == |f.feedback|
    ensures forall i :: 0 <= i < |icons| ==> icons[i] == DescriptionFeedbackIconFixed(f.feedback[i])
  {
    seq(|f.feedback|, i requires 0 <= i < |f.feedback| => DescriptionFeedbackIconFixed(f.feedback[i]))
  }

  // ---------------------------------------------------------------- properties

  /** The title card reads "Excellent" exactly for a title of 30 to 60 characters, "Needs
      Improvement" exactly when there is no title. */
  lemma TitleBadgeRules(t: string)
    ensures StatusBadge(TitleFinding(t).status) == Excellent <==> 30 <= |t| <= 60
    ensures StatusBadge(TitleFinding(t).status) == Good <==> t != "" && (|t| < 30 || |t| > 60)
    ensures StatusBadge(TitleFinding(t).status) == NeedsImprovement <==> t == ""
  {
    TitleRules(t);
  }

  /** The description card reads "Excellent" exactly for 120 to 160 characters. */
  lemma DescriptionBadgeRules(d: string)
    ensures StatusBadge(DescriptionFinding(d).status) == Excellent <==> 120 <= |d| <= 160
    ensures StatusBadge(DescriptionFinding(d).status) == Good <==> d != "" && (|d| < 120 || |d| > 160)
    ensures StatusBadge(DescriptionFinding(d).status) == NeedsImprovement <==> d == ""
  {
    DescriptionRules(d);
  }

  /** A complete Open Graph list in which `og:image` occurs twice. */
  const DuplicatedOg := [MetaTag("og:title", "T", Success), MetaTag("og:description", "D", Success),
                         MetaTag("og:image", "a.png", Success), MetaTag("og:image", "b.png", Success),
                         MetaTag("og:url", "https://example.com", Success)]

  lemma DuplicatedOgCount()
    ensures CountImportantSuccess(DuplicatedOg, ImportantOg) == 5
  {
    var tags := DuplicatedOg;
    assert tags[..4] == tags[..5][..4] && tags[..3] == tags[..4][..3];
    assert tags[..2] == tags[..3][..2] && tags[..1] == tags[..2][..1] && tags[..0] == [];
    assert ImportantOg[0] == "og:title" && ImportantOg[1] == "og:description";
    assert ImportantOg[2] == "og:image" && ImportantOg[3] == "og:url";
    assert CountImportantSuccess(tags[..1], ImportantOg) == 1;
    assert CountImportantSuccess(tags[..2], ImportantOg) == 2;
    assert CountImportantSuccess(tags[..3], ImportantOg) == 3;
    assert CountImportantSuccess(tags[..4], ImportantOg) == 4;
    assert tags[..5] == tags;
  }

  lemma DuplicatedOgFound()
    ensures HasSuccess(DuplicatedOg, "og:title") && HasSuccess(DuplicatedOg, "og:description")
    ensures HasSuccess(DuplicatedOg, "og:image") && HasSuccess(DuplicatedOg, "og:url")
  {
    var tags := DuplicatedOg;
    assert tags[0].name == "og:title" && tags[1].name == "og:description";
    assert tags[2].name == "og:image" && tags[4].name == "og:url";
  }

  /** As written, a duplicated important tag spoils a complete list: every Open Graph name has a
      successful tag, yet the count is 5 and the badge reads "Partial". */
  lemma DuplicateTagMakesPartial()
    ensures forall n :: n in ImportantOg ==> HasSuccess(DuplicatedOg, n)
    ensures TagsStatusBadge(DuplicatedOg, ImportantOg) == Partial
    ensures TagsStatusBadgeByName(DuplicatedOg, ImportantOg) == Complete
  {
    DuplicatedOgCount();
    DuplicatedOgFound();
    FoundNamesFour(DuplicatedOg, "og:title", "og:description", "og:image", "og:url");
  }

  /** As written, four successful `og:title` tags make the badge read "Complete" although there is
      no `og:image` at all. */
  lemma RepeatedTagMakesComplete()
    ensures var t := MetaTag("og:title", "T", Success);
            var tags := [t, t, t, t];
            && !HasSuccess(tags, "og:image")
            && TagsStatusBadge(tags, ImportantOg) == Complete
            && TagsStatusBadgeByName(tags, ImportantOg) == Partial
  {
    var t := MetaTag("og:title", "T", Success);
    var tags := [t, t, t, t];
    assert tags[..3] == [t, t, t] && [t, t, t][..2] == [t, t] && [t, t][..1] == [t] && [t][..0] == [];
    assert ImportantOg[0] == "og:title";
    assert CountImportantSuccess([t], ImportantOg) == 1;
    assert CountImportantSuccess([t, t], ImportantOg) == 2;
    assert CountImportantSuccess([t, t, t], ImportantOg) == 3;
    assert CountImportantSuccess(tags, ImportantOg) == 4;
    assert HasSuccess(tags, "og:title") by { assert tags[0] == t; }
    FoundNamesAll(tags, ImportantOg);
    FoundNamesNone(tags, ImportantOg);
  }

  /** The positions the badge counts: successful tags whose name is important. */
  function ImportantSuccessIndices(tags: seq<MetaTag>, important: seq<string>): set<int>
  {
    set i | 0 <= i < |tags| && tags[i].status == Success && tags[i].name in important
  }

  /** The badge's count is the number of successful tags with an important name, duplicates
      included. */
  lemma {:induction false} CountImportantSuccessIndices(tags: seq<MetaTag>, important: seq<string>)
    ensures CountImportantSuccess(tags, important) == |ImportantSuccessIndices(tags, important)|
  {
    if tags != [] {
      var n := |tags| - 1;
      var init := tags[..n];
      CountImportantSuccessIndices(init, important);
      var last := if tags[n].status == Success && tags[n].name in important then {n} else {};
      assert ImportantSuccessIndices(tags, important) == ImportantSuccessIndices(init, important) + last;
      assert n !in ImportantSuccessIndices(init, important);
    }
  }

  /** `getTagsStatusBadge` as written: "Complete" iff the count of successful important tags equals
      the number of important names, "Missing" iff that count is zero while there are names,
      "Partial" iff the count is positive and differs from the number of names. */
  lemma TagsStatusBadgeRules(tags: seq<MetaTag>, important: seq<string>)
    ensures var found := |ImportantSuccessIndices(tags, important)|;
            && (TagsStatusBadge(tags, important) == Complete <==> found == |important|)
            && (TagsStatusBadge(tags, important) == Missing <==> found == 0 && important != [])
            && (TagsStatusBadge(tags, important) == Partial <==> found > 0 && found != |important|)
  {
    CountImportantSuccessIndices(tags, important);
  }

  /** No important name has two successful tags. */
  predicate NoDuplicateSuccess(tags: seq<MetaTag>, important: seq<string>)
  {
    forall i, j ::
      0 <= i < j < |tags| && tags[i].status == Success && tags[j].status == Success && tags[j].name in important
      ==> tags[i].name != tags[j].name
  }

  /** A tag appended to a list is successful for a name exactly when it is itself, or an earlier
      one is. */
  lemma HasSuccessSnoc(init: seq<MetaTag>, t: MetaTag, name: string)
    ensures HasSuccess(init + [t], name) <==> HasSuccess(init, name) || (t.name == name && t.status == Success)
  {
    var tags := init + [t];
    if HasSuccess(tags, name) && !(t.name == name && t.status == Success) {
      var k :| 0 <= k < |tags| && tags[k].name == name && tags[k].status == Success;
      assert k < |init| && init[k] == tags[k];
    }
    if HasSuccess(init, name) {
      var k :| 0 <= k < |init| && init[k].name == name && init[k].status == Success;
      assert tags[k] == init[k];
    }
    if t.name == name && t.status == Success {
      assert tags[|init|] == t;
    }
  }

  /** Appending a tag adds one found name exactly when it is a successful tag of an important name
      that had none yet. */
  lemma {:induction false} FoundNamesSnoc(init: seq<MetaTag>, t: MetaTag, important: seq<string>)
    requires Distinct(important)
    ensures FoundNames(init + [t], important) ==
            FoundNames(init, important) + Bit(t.status == Success && t.name in important && !HasSuccess(init, t.name))
  {
    if important != [] {
      var names := important[..|important| - 1];
      var name := important[|important| - 1];
      assert important == names + [name];
      assert Distinct(names);
      assert name !in names;
      FoundNamesSnoc(init, t, names);
      HasSuccessSnoc(init, t, name);
    }
  }

  /** Where no important name has two successful tags, the count as written and the corrected count
      agree. */
  lemma {:induction false} CountImportantSuccessIsFoundNames(tags: seq<MetaTag>, important: seq<string>)
    requires Distinct(important)
    requires NoDuplicateSuccess(tags, important)
    ensures CountImportantSuccess(tags, important) == FoundNames(tags, important)
  {
    if tags == [] {
      FoundNamesNone(tags, important);
    } else {
      var n := |tags| - 1;
      var init, t := tags[..n], tags[n];
      assert tags == init + [t];
      assert NoDuplicateSuccess(init, important) by {
        forall i, j | 0 <= i < j < |init| && init[i].status == Success && init[j].status == Success &&
                      init[j].name in important
          ensures init[i].name != init[j].name
        {
          assert init[i] == tags[i] && init[j] == tags[j];
        }
      }
      CountImportantSuccessIsFoundNames(init, important);
      FoundNamesSnoc(init, t, important);
      if t.status == Success && t.name in important {
        forall k | 0 <= k < |init| && init[k].status == Success ensures init[k].name != t.name {
          assert tags[k] == init[k];
        }
      }
    }
  }

  lemma ImportantListsDistinct()
    ensures Distinct(ImportantOg) && Distinct(ImportantTwitter) && Distinct(ImportantOther)
  {
  }

  /** Every listed name has a successful tag exactly when all of them are counted. */
  lemma {:induction false} FoundNamesAll(tags: seq<MetaTag>, important: seq<string>)
    ensures FoundNames(tags, important) == |important| <==> forall n :: n in important ==> HasSuccess(tags, n)
  {
    if important != [] {
      var init := important[..|important| - 1];
      FoundNamesAll(tags, init);
      assert important == init + [important[|important| - 1]];
    }
  }

  /** No listed name has a successful tag exactly when none is counted. */
  lemma {:induction false} FoundNamesNone(tags: seq<MetaTag>, important: seq<string>)
    ensures FoundNames(tags, important) == 0 <==> forall n :: n in important ==> !HasSuccess(tags, n)
  {
    if important != [] {
      var init := important[..|important| - 1];
      FoundNamesNone(tags, init);
      assert important == init + [important[|important| - 1]];
    }
  }

  /** The corrected badge: "Complete" iff every important name has a successful tag, "Missing" iff
      there are important names and none has, "Partial" otherwise. */
  lemma TagsStatusBadgeByNameRules(tags: seq<MetaTag>, important: seq<string>)
    ensures TagsStatusBadgeByName(tags, important) == Complete <==>
            forall n :: n in important ==> HasSuccess(tags, n)
    ensures TagsStatusBadgeByName(tags, important) == Missing <==>
            important != [] && forall n :: n in important ==> !HasSuccess(tags, n)
    ensures TagsStatusBadgeByName(tags, important) == Partial <==>
            (exists n :: n in important && HasSuccess(tags, n)) && (exists n :: n in important && !HasSuccess(tags, n))
  {
    FoundNamesAll(tags, important);
    FoundNamesNone(tags, important);
    if important != [] {
      assert important[0] in important;
    }
  }

  /** The placeholders after the discovered tags are all errors. */
  lemma PlaceholdersFail(attrs: seq<Attr>, required: seq<string>)
    requires Distinct(required)
    ensures forall k :: |attrs| <= k < |SocialTags(attrs, required)| ==> SocialTags(attrs, required)[k].status == Error
  {
    var tags := SocialTags(attrs, required);
    var missing := MissingNames(MapTags(attrs, FoundTag), required);
    SocialTagsShape(attrs, required);
    forall k | |attrs| <= k < |tags| ensures tags[k].status == Error {
      assert tags[|attrs| + (k - |attrs|)] == Placeholder(missing[k - |attrs|]);
    }
  }

  /** On the engine's Open Graph or Twitter list a name has a successful tag exactly when the page
      has a tag of that name with non-empty content: placeholders never count. */
  lemma HasSuccessSocial(attrs: seq<Attr>, required: seq<string>, name: string)
    requires Distinct(required)
    ensures HasSuccess(SocialTags(attrs, required), name) <==>
            exists i :: 0 <= i < |attrs| && attrs[i].key == name && attrs[i].content != ""
  {
    var tags := SocialTags(attrs, required);
    SocialTagsShape(attrs, required);
    PlaceholdersFail(attrs, required);
    if HasSuccess(tags, name) {
      var k :| 0 <= k < |tags| && tags[k].name == name && tags[k].status == Success;
      assert attrs[k].key == name && attrs[k].content != "";
    }
    if exists i :: 0 <= i < |attrs| && attrs[i].key == name && attrs[i].content != "" {
      var i :| 0 <= i < |attrs| && attrs[i].key == name && attrs[i].content != "";
      assert tags[i].name == name && tags[i].status == Success;
    }
  }

  /** With the corrected count, the Open Graph card reads "Complete" exactly when the page has
      non-empty `og:title`, `og:description`, `og:image` and `og:url` tags. */
  lemma OgBadgeFixedOfPage(p: Page)
    ensures OgBadgeFixed(MetaTagsOf(p)) == Complete <==>
            forall n :: n in ImportantOg ==> exists i :: 0 <= i < |p.og| && p.og[i].key == n && p.og[i].content != ""
  {
    RequiredListsDistinct();
    TagsStatusBadgeByNameRules(MetaTagsOf(p).ogTags, ImportantOg);
    forall n ensures HasSuccess(MetaTagsOf(p).ogTags, n) <==>
                     exists i :: 0 <= i < |p.og| && p.og[i].key == n && p.og[i].content != "" {
      HasSuccessSocial(p.og, RequiredOg, n);
    }
  }

  /** With the corrected count, the Twitter card reads "Complete" exactly when the page has
      non-empty `twitter:card`, `twitter:title`, `twitter:description` and `twitter:image` tags. */
  lemma TwitterBadgeFixedOfPage(p: Page)
    ensures TwitterBadgeFixed(MetaTagsOf(p)) == Complete <==>
            forall n :: n in ImportantTwitter ==>
              exists i :: 0 <= i < |p.twitter| && p.twitter[i].key == n && p.twitter[i].content != ""
  {
    RequiredListsDistinct();
    TagsStatusBadgeByNameRules(MetaTagsOf(p).twitterTags, ImportantTwitter);
    forall n ensures HasSuccess(MetaTagsOf(p).twitterTags, n) <==>
                     exists i :: 0 <= i < |p.twitter| && p.twitter[i].key == n && p.twitter[i].content != "" {
      HasSuccessSocial(p.twitter, RequiredTwitter, n);
    }
  }

  /** The page has no two non-empty tags of the same important key. */
  predicate NoRepeatedKey(attrs: seq<Attr>, important: seq<string>)
  {
    forall i, j ::
      0 <= i < j < |attrs| && attrs[i].content != "" && attrs[j].content != "" && attrs[j].key in important
      ==> attrs[i].key != attrs[j].key
  }

  /** A page without repeated non-empty important tags gives an Open Graph or Twitter list in which
      no important name has two successful tags. */
  lemma SocialNoDuplicateSuccess(attrs: seq<Attr>, required: seq<string>, important: seq<string>)
    requires Distinct(required)
    requires NoRepeatedKey(attrs, important)
    ensures NoDuplicateSuccess(SocialTags(attrs, required), important)
  {
    SocialTagsShape(attrs, required);
    PlaceholdersFail(attrs, required);
  }

  /** As written, the Open Graph or Twitter card reads "Missing" exactly when the page has no
      non-empty tag of an important key: placeholders never count. */
  lemma SocialBadgeMissing(attrs: seq<Attr>, required: seq<string>, important: seq<string>)
    requires Distinct(required)
    ensures TagsStatusBadge(SocialTags(attrs, required), important) == Missing <==>
            important != [] && forall i :: 0 <= i < |attrs| && attrs[i].key in important ==> attrs[i].content == ""
  {
    var tags := SocialTags(attrs, required);
    SocialTagsShape(attrs, required);
    PlaceholdersFail(attrs, required);
    TagsStatusBadgeRules(tags, important);
    var found := ImportantSuccessIndices(tags, important);
    if i :| 0 <= i < |attrs| && attrs[i].key in important && attrs[i].content != "" {
      assert i in found;
    }
    if found != {} {
      var k :| k in found;
      assert k < |attrs|;
    }
  }

  /** As written, the Open Graph card reads "Missing" exactly when the page has no non-empty
      `og:title`, `og:description`, `og:image` or `og:url`; where the page repeats none of those
      keys it agrees with the corrected card, so it reads "Complete" exactly when all four are
      present. */
  lemma OgBadgeOfPage(p: Page)
    ensures OgBadge(MetaTagsOf(p)) == Missing <==>
            forall i :: 0 <= i < |p.og| && p.og[i].key in ImportantOg ==> p.og[i].content == ""
    ensures NoRepeatedKey(p.og, ImportantOg) ==>
            && OgBadge(MetaTagsOf(p)) == OgBadgeFixed(MetaTagsOf(p))
            && (OgBadge(MetaTagsOf(p)) == Complete <==>
                forall n :: n in ImportantOg ==> exists i :: 0 <= i < |p.og| && p.og[i].key == n && p.og[i].content != "")
  {
    RequiredListsDistinct();
    ImportantListsDistinct();
    SocialBadgeMissing(p.og, RequiredOg, ImportantOg);
    if NoRepeatedKey(p.og, ImportantOg) {
      SocialNoDuplicateSuccess(p.og, RequiredOg, ImportantOg);
      CountImportantSuccessIsFoundNames(MetaTagsOf(p).ogTags, ImportantOg);
      OgBadgeFixedOfPage(p);
    }
  }

  /** As written, the Twitter card reads "Missing" exactly when the page has no non-empty
      `twitter:card`, `twitter:title`, `twitter:description` or `twitter:image`; where the page
      repeats none of those keys it agrees with the corrected card. */
  lemma TwitterBadgeOfPage(p: Page)
    ensures TwitterBadge(MetaTagsOf(p)) == Missing <==>
            forall i :: 0 <= i < |p.twitter| && p.twitter[i].key in ImportantTwitter ==> p.twitter[i].content == ""
    ensures NoRepeatedKey(p.twitter, ImportantTwitter) ==>
            && TwitterBadge(MetaTagsOf(p)) == TwitterBadgeFixed(MetaTagsOf(p))
            && (TwitterBadge(MetaTagsOf(p)) == Complete <==>
                forall n :: n in ImportantTwitter ==>
                  exists i :: 0 <= i < |p.twitter| && p.twitter[i].key == n && p.twitter[i].content != "")
  {
    RequiredListsDistinct();
    ImportantListsDistinct();
    SocialBadgeMissing(p.twitter, RequiredTwitter, ImportantTwitter);
    if NoRepeatedKey(p.twitter, ImportantTwitter) {
      SocialNoDuplicateSuccess(p.twitter, RequiredTwitter, ImportantTwitter);
      CountImportantSuccessIsFoundNames(MetaTagsOf(p).twitterTags, ImportantTwitter);
      TwitterBadgeFixedOfPage(p);
    }
  }

  /** Where a name occurs once, its success is that of its one tag. */
  lemma HasSuccessAt(tags: seq<MetaTag>, i: nat, name: string)
    requires i < |tags| && tags[i].name == name
    requires forall j :: 0 <= j < |tags| && j != i ==> tags[j].name != name
    ensures HasSuccess(tags, name) <==> tags[i].status == Success
  {
  }

  lemma ViewportSuccess(p: Page)
    ensures HasSuccess(MetaTagsOf(p).otherTags, "viewport") <==> p.viewport != ""
  {
    OtherTagsList(p);
    HasSuccessAt(MetaTagsOf(p).otherTags, 0, "viewport");
  }

  lemma RobotsSuccess(p: Page)
    ensures HasSuccess(MetaTagsOf(p).otherTags, "robots") <==> p.robots != ""
  {
    OtherTagsList(p);
    HasSuccessAt(MetaTagsOf(p).otherTags, 1, "robots");
  }

  lemma CanonicalSuccess(p: Page)
    ensures HasSuccess(MetaTagsOf(p).otherTags, "canonical") <==> p.canonical != ""
  {
    OtherTagsList(p);
    HasSuccessAt(MetaTagsOf(p).otherTags, 2, "canonical");
  }

  lemma LanguageSuccess(p: Page)
    ensures HasSuccess(MetaTagsOf(p).otherTags, "language") <==> p.lang != ""
  {
    OtherTagsList(p);
    HasSuccessAt(MetaTagsOf(p).otherTags, 3, "language");
  }

  /** Each of the four technical tags is successful exactly when the page has its value. */
  lemma OtherTagsSuccess(p: Page)
    ensures var tags := MetaTagsOf(p).otherTags;
            && (HasSuccess(tags, "viewport") <==> p.viewport != "")
            && (HasSuccess(tags, "robots") <==> p.robots != "")
            && (HasSuccess(tags, "canonical") <==> p.canonical != "")
            && (HasSuccess(tags, "language") <==> p.lang != "")
  {
    ViewportSuccess(p);
    RobotsSuccess(p);
    CanonicalSuccess(p);
    LanguageSuccess(p);
  }

  function Bit(b: bool): nat
  {
    if b then 1 else 0
  }

  lemma FoundNamesFour(tags: seq<MetaTag>, a: string, b: string, c: string, d: string)
    ensures FoundNames(tags, [a, b, c, d]) ==
              Bit(HasSuccess(tags, a)) + Bit(HasSuccess(tags, b)) + Bit(HasSuccess(tags, c)) + Bit(HasSuccess(tags, d))
  {
    assert FoundNames(tags, [a]) == Bit(HasSuccess(tags, a)) by {
      assert [a][..0] == [];
    }
    assert FoundNames(tags, [a, b]) == Bit(HasSuccess(tags, a)) + Bit(HasSuccess(tags, b)) by {
      assert [a, b][..1] == [a];
    }
    assert FoundNames(tags, [a, b, c]) ==
           Bit(HasSuccess(tags, a)) + Bit(HasSuccess(tags, b)) + Bit(HasSuccess(tags, c)) by {
      assert [a, b, c][..2] == [a, b];
    }
    assert [a, b, c, d][..3] == [a, b, c];
  }

  /** With the corrected count, the technical card reads "Complete" exactly when viewport, robots,
      canonical and language are all present, "Missing" exactly when all four are absent. */
  lemma OtherBadgeFixedOfPage(p: Page)
    ensures OtherBadgeFixed(MetaTagsOf(p)) == Complete <==>
            p.viewport != "" && p.robots != "" && p.canonical != "" && p.lang != ""
    ensures OtherBadgeFixed(MetaTagsOf(p)) == Missing <==>
            p.viewport == "" && p.robots == "" && p.canonical == "" && p.lang == ""
  {
    OtherTagsSuccess(p);
    FoundNamesFour(MetaTagsOf(p).otherTags, "viewport", "robots", "canonical", "language");
  }

  /** Each technical name occurs once in the engine's list. */
  lemma OtherTagsNoDuplicate(p: Page)
    ensures NoDuplicateSuccess(MetaTagsOf(p).otherTags, ImportantOther)
  {
    OtherTagsList(p);
    var tags := MetaTagsOf(p).otherTags;
    assert tags[0].name == "viewport" && tags[1].name == "robots";
    assert tags[2].name == "canonical" && tags[3].name == "language";
  }

  /** The technical card as written agrees with the corrected one, because each technical name
      occurs once: it reads "Complete" exactly when viewport, robots, canonical and language are all
      present, "Missing" exactly when all four are absent. */
  lemma OtherBadgeOfPage(p: Page)
    ensures OtherBadge(MetaTagsOf(p)) == OtherBadgeFixed(MetaTagsOf(p))
    ensures OtherBadge(MetaTagsOf(p)) == Complete <==>
            p.viewport != "" && p.robots != "" && p.canonical != "" && p.lang != ""
    ensures OtherBadge(MetaTagsOf(p)) == Missing <==>
            p.viewport == "" && p.robots == "" && p.canonical == "" && p.lang == ""
  {
    ImportantListsDistinct();
    OtherTagsNoDuplicate(p);
    CountImportantSuccessIsFoundNames(MetaTagsOf(p).otherTags, ImportantOther);
    OtherBadgeFixedOfPage(p);
  }

  // The occurrences of the icon patterns in the engine's notes, one fact per lemma.

  lemma OptimalHasOptimal()
    ensures Contains(TitleOptimal, "Optimal")
  {
    ContainsAt("Optimal length", "Optimal", 0);
    ContainsInFront("Optimal length", " (between 30-60 characters)", "Optimal");
  }

  lemma TitleTooShortLacksOptimal()
    ensures !Contains(TitleTooShort, "Optimal")
  {
    NotContainsByCharSplit("Title is too short", " (less than 30 characters)", "Optimal", 4);
  }

  lemma TitleTooShortHasTooShort()
    ensures Contains(TitleTooShort, "too short")
  {
    ContainsAt("Title is too short", "too short", 9);
    ContainsInFront("Title is too short", " (less than 30 characters)", "too short");
  }

  lemma TitleTooShortLacksBrandSeparator()
    ensures !Contains(TitleTooShort, "Contains brand separator")
  {
    NotContainsByCharSplit("Title is too short", " (less than 30 characters)", "Contains brand separator", 17);
  }

  lemma TitleTooShortFacts()
    ensures !Contains(TitleTooShort, "Optimal")
    ensures Contains(TitleTooShort, "too short")
    ensures !Contains(TitleTooShort, "Contains brand separator")
  {
    TitleTooShortLacksOptimal();
    TitleTooShortHasTooShort();
    TitleTooShortLacksBrandSeparator();
  }

  lemma TitleTooLongLacksOptimal()
    ensures !Contains(TitleTooLong, "Optimal")
  {
    NotContainsByCharSplit("Title is too long", " (more than 60 characters)", "Optimal", 1);
  }

  lemma TitleTooLongHasTooLong()
    ensures Contains(TitleTooLong, "too long")
  {
    ContainsAt("Title is too long", "too long", 9);
    ContainsInFront("Title is too long", " (more than 60 characters)", "too long");
  }

  lemma TitleTooLongLacksBrandSeparator()
    ensures !Contains(TitleTooLong, "Contains brand separator")
  {
    NotContainsByCharSplit("Title is too long", " (more than 60 characters)", "Contains brand separator", 17);
  }

  lemma TitleTooLongFacts()
    ensures !Contains(TitleTooLong, "Optimal")
    ensures Contains(TitleTooLong, "too long")
    ensures !Contains(TitleTooLong, "Contains brand separator")
  {
    TitleTooLongLacksOptimal();
    TitleTooLongHasTooLong();
    TitleTooLongLacksBrandSeparator();
  }

  lemma MissingTitleLacksOptimal()
    ensures !Contains(MissingTitle, "Optimal")
  {
    NotContainsByChar(MissingTitle, "Optimal", 4);
  }

  lemma MissingTitleLacksTooShort()
    ensures !Contains(MissingTitle, "too short")
  {
    NotContainsByChar(MissingTitle, "too short", 7);
  }

  lemma MissingTitleLacksTooLong()
    ensures !Contains(MissingTitle, "too long")
  {
    NotContainsByChar(MissingTitle, "too long", 5);
  }

  lemma MissingTitleLacksBrandSeparator()
    ensures !Contains(MissingTitle, "Contains brand separator")
  {
    NotContainsByChar(MissingTitle, "Contains brand separator", 23);
  }

  lemma MissingTitleFacts()
    ensures !Contains(MissingTitle, "Optimal")
    ensures !Contains(MissingTitle, "too short")
    ensures !Contains(MissingTitle, "too long")
    ensures !Contains(MissingTitle, "Contains brand separator")
  {
    MissingTitleLacksOptimal();
    MissingTitleLacksTooShort();
    MissingTitleLacksTooLong();
    MissingTitleLacksBrandSeparator();
  }

  lemma BrandLacksOptimal()
    ensures !Contains(BrandSeparatorNote, "Optimal")
  {
    NotContainsByCharSplit("Contains brand separator", ", good for SEO", "Optimal", 6);
  }

  lemma BrandLacksTooShort()
    ensures !Contains(BrandSeparatorNote, "too short")
  {
    NotContainsByCharSplit("Contains brand separator", ", good for SEO", "too short", 5);
  }

  lemma BrandLacksTooLong()
    ensures !Contains(BrandSeparatorNote, "too long")
  {
    NotContainsByCharSplit("Contains brand separator", ", good for SEO", "too long", 4);
  }

  lemma BrandHasBrandSeparator()
    ensures Contains(BrandSeparatorNote, "Contains brand separator")
  {
    ContainsAt("Contains brand separator", "Contains brand separator", 0);
    ContainsInFront("Contains brand separator", ", good for SEO", "Contains brand separator");
  }

  lemma BrandNoteFacts()
    ensures !Contains(BrandSeparatorNote, "Optimal")
    ensures !Contains(BrandSeparatorNote, "too short")
    ensures !Contains(BrandSeparatorNote, "too long")
    ensures Contains(BrandSeparatorNote, "Contains brand separator")
  {
    BrandLacksOptimal();
    BrandLacksTooShort();
    BrandLacksTooLong();
    BrandHasBrandSeparator();
  }

  lemma GoodLengthHasGoodLength()
    ensures Contains(DescriptionGoodLength, "Good length")
  {
    ContainsAt("Good length", "Good length", 0);
    ContainsInFront("Good length", " (between 120-160 characters)", "Good length");
  }

  lemma DescriptionTooShortLacksGoodLength()
    ensures !Contains(DescriptionTooShort, "Good length")
  {
    NotContainsByCharSplit("Description is too short", " (less than 120 characters)", "Good length", 8);
  }

  lemma DescriptionTooShortHasTooShort()
    ensures Contains(DescriptionTooShort, "too short")
  {
    ContainsAt("Description is too short", "too short", 15);
    ContainsInFront("Description is too short", " (less than 120 characters)", "too short");
  }

  lemma DescriptionTooShortLacksCallToAction()
    ensures !Contains(DescriptionTooShort, "Contains call-to-action")
  {
    NotContainsByCharSplit("Description is too short", " (less than 120 characters)", "Contains call-to-action", 16);
  }

  lemma DescriptionTooShortFacts()
    ensures !Contains(DescriptionTooShort, "Good length")
    ensures Contains(DescriptionTooShort, "too short")
    ensures !Contains(DescriptionTooShort, "Contains call-to-action")
  {
    DescriptionTooShortLacksGoodLength();
    DescriptionTooShortHasTooShort();
    DescriptionTooShortLacksCallToAction();
  }

  lemma DescriptionTooLongLacksGoodLength()
    ensures !Contains(DescriptionTooLong, "Good length")
  {
    NotContainsByCharSplit("Description is too long", " (more than 160 characters)", "Good length", 3);
  }

  lemma DescriptionTooLongHasTooLong()
    ensures Contains(DescriptionTooLong, "too long")
  {
    ContainsAt("Description is too long", "too long", 15);
    ContainsInFront("Description is too long", " (more than 160 characters)", "too long");
  }

  lemma DescriptionTooLongLacksCallToAction()
    ensures !Contains(DescriptionTooLong, "Contains call-to-action")
  {
    NotContainsByCharSplit("Description is too long", " (more than 160 characters)", "Contains call-to-action", 16);
  }

  lemma DescriptionTooLongFacts()
    ensures !Contains(DescriptionTooLong, "Good length")
    ensures Contains(DescriptionTooLong, "too long")
    ensures !Contains(DescriptionTooLong, "Contains call-to-action")
  {
    DescriptionTooLongLacksGoodLength();
    DescriptionTooLongHasTooLong();
    DescriptionTooLongLacksCallToAction();
  }

  lemma NoCallToActionLacksGoodLength()
    ensures !Contains(NoCallToActionNote, "Good length")
  {
    NotContainsByChar(NoCallToActionNote, "Good length", 10);
  }

  lemma NoCallToActionLacksCallToAction()
    ensures !Contains(NoCallToActionNote, "Contains call-to-action")
  {
    NotContainsByChar(NoCallToActionNote, "Contains call-to-action", 0);
  }

  lemma NoCallToActionHasMissingCallToAction()
    ensures Contains(NoCallToActionNote, "Missing call-to-action")
  {
    ContainsAt(NoCallToActionNote, "Missing call-to-action", 0);
  }

  lemma NoCallToActionFacts()
    ensures !Contains(NoCallToActionNote, "Good length")
    ensures !Contains(NoCallToActionNote, "Contains call-to-action")
    ensures Contains(NoCallToActionNote, "Missing call-to-action")
  {
    NoCallToActionLacksGoodLength();
    NoCallToActionLacksCallToAction();
    NoCallToActionHasMissingCallToAction();
  }

  lemma MissingDescriptionLacksGoodLength()
    ensures !Contains(MissingDescription, "Good length")
  {
    NotContainsByChar(MissingDescription, "Good length", 10);
  }

  lemma MissingDescriptionLacksCallToAction()
    ensures !Contains(MissingDescription, "Contains call-to-action")
  {
    NotContainsByChar(MissingDescription, "Contains call-to-action", 16);
  }

  lemma MissingDescriptionLacksTooShort()
    ensures !Contains(MissingDescription, "too short")
  {
    NotContainsByChar(MissingDescription, "too short", 5);
  }

  lemma MissingDescriptionLacksTooLong()
    ensures !Contains(MissingDescription, "too long")
  {
    NotContainsByChar(MissingDescription, "too long", 4);
  }

  lemma MissingDescriptionLacksMissingCallToAction()
    ensures !Contains(MissingDescription, "Missing call-to-action")
  {
    NotContainsByChar(MissingDescription, "Missing call-to-action", 15);
  }

  lemma MissingDescriptionFacts()
    ensures !Contains(MissingDescription, "Good length")
    ensures !Contains(MissingDescription, "Contains call-to-action")
    ensures !Contains(MissingDescription, "too short")
    ensures !Contains(MissingDescription, "too long")
    ensures !Contains(MissingDescription, "Missing call-to-action")
  {
    MissingDescriptionLacksGoodLength();
    MissingDescriptionLacksCallToAction();
    MissingDescriptionLacksTooShort();
    MissingDescriptionLacksTooLong();
    MissingDescriptionLacksMissingCallToAction();
  }

  lemma CallToActionLacksGoodLength()
    ensures !Contains(CallToActionNote, "Good length")
  {
    NotContainsByChar(CallToActionNote, "Good length", 10);
  }

  lemma CallToActionLacksTooShort()
    ensures !Contains(CallToActionNote, "too short")
  {
    NotContainsByChar(CallToActionNote, "too short", 7);
  }

  lemma CallToActionLacksTooLong()
    ensures !Contains(CallToActionNote, "too long")
  {
    NotContainsByChar(CallToActionNote, "too long", 7);
  }

  lemma CallToActionLacksMissingCallToAction()
    ensures !Contains(CallToActionNote, "Missing call-to-action")
  {
    NotContainsByChar(CallToActionNote, "Missing call-to-action", 6);
  }

  lemma CallToActionHasCallToAction()
    ensures Contains(CallToActionNote, "Contains call-to-action")
  {
    ContainsAt(CallToActionNote, "Contains call-to-action", 0);
  }

  lemma CallToActionFacts()
    ensures !Contains(CallToActionNote, "Good length")
    ensures !Contains(CallToActionNote, "too short")
    ensures !Contains(CallToActionNote, "too long")
    ensures !Contains(CallToActionNote, "Missing call-to-action")
    ensures Contains(CallToActionNote, "Contains call-to-action")
  {
    CallToActionLacksGoodLength();
    CallToActionLacksTooShort();
    CallToActionLacksTooLong();
    CallToActionLacksMissingCallToAction();
    CallToActionHasCallToAction();
  }

  /** The icon each title note gets as written: the brand-separator note, a positive note, gets
      the error icon like a missing title. */
  lemma TitleNoteIcons()
    ensures TitleFeedbackIcon(TitleOptimal) == Success
    ensures TitleFeedbackIcon(TitleTooShort) == Warning && TitleFeedbackIcon(TitleTooLong) == Warning
    ensures TitleFeedbackIcon(MissingTitle) == Error
    ensures TitleFeedbackIcon(BrandSeparatorNote) == Error
  {
    OptimalHasOptimal();
    TitleTooShortFacts();
    TitleTooLongFacts();
    MissingTitleFacts();
    BrandNoteFacts();
  }

  /** The corrected title icons: the brand-separator note gets the success icon. */
  lemma TitleNoteIconsFixed()
    ensures TitleFeedbackIconFixed(TitleOptimal) == Success
    ensures TitleFeedbackIconFixed(BrandSeparatorNote) == Success
    ensures TitleFeedbackIconFixed(TitleTooShort) == Warning && TitleFeedbackIconFixed(TitleTooLong) == Warning
    ensures TitleFeedbackIconFixed(MissingTitle) == Error
  {
    OptimalHasOptimal();
    TitleTooShortFacts();
    TitleTooLongFacts();
    MissingTitleFacts();
    BrandNoteFacts();
  }

  /** The icon each description note gets as written: "Contains call-to-action", a positive note,
      gets the error icon while "Missing call-to-action" gets a warning. */
  lemma DescriptionNoteIcons()
    ensures DescriptionFeedbackIcon(DescriptionGoodLength) == Success
    ensures DescriptionFeedbackIcon(DescriptionTooShort) == Warning && DescriptionFeedbackIcon(DescriptionTooLong) == Warning
    ensures DescriptionFeedbackIcon(NoCallToActionNote) == Warning
    ensures DescriptionFeedbackIcon(MissingDescription) == Error
    ensures DescriptionFeedbackIcon(CallToActionNote) == Error
  {
    GoodLengthHasGoodLength();
    DescriptionTooShortFacts();
    DescriptionTooLongFacts();
    NoCallToActionFacts();
    MissingDescriptionFacts();
    CallToActionFacts();
  }

  /** The corrected description icons: the call-to-action note gets the success icon. */
  lemma DescriptionNoteIconsFixed()
    ensures DescriptionFeedbackIconFixed(DescriptionGoodLength) == Success
    ensures DescriptionFeedbackIconFixed(CallToActionNote) == Success
    ensures DescriptionFeedbackIconFixed(DescriptionTooShort) == Warning
    ensures DescriptionFeedbackIconFixed(DescriptionTooLong) == Warning
    ensures DescriptionFeedbackIconFixed(NoCallToActionNote) == Warning
    ensures DescriptionFeedbackIconFixed(MissingDescription) == Error
  {
    GoodLengthHasGoodLength();
    DescriptionTooShortFacts();
    DescriptionTooLongFacts();
    NoCallToActionFacts();
    MissingDescriptionFacts();
    CallToActionFacts();
  }

  /** As written, the first title line carries the icon of the title's status, and the
      brand-separator note, when present, an error icon. */
  lemma TitleIconsAsWritten(t: string)
    ensures TitleFeedbackIcon(TitleFinding(t).feedback[0]) == TitleFinding(t).status
    ensures t != "" && HasBrandSeparator(t) ==> TitleFeedbackIcon(TitleFinding(t).feedback[1]) == Error
  {
    TitleNoteIcons();
  }

  /** With the corrected icons the first title line carries the icon of the title's status, and
      the brand-separator note, when present, a success icon. */
  lemma TitleIconsFixed(t: string)
    ensures TitleIcons(TitleFinding(t))[0] == TitleFinding(t).status
    ensures t != "" && HasBrandSeparator(t) ==> TitleIcons(TitleFinding(t))[1] == Success
  {
    TitleNoteIconsFixed();
  }

  /** As written, the second description line of a description with a call to action carries an
      error icon, and one without carries a warning. */
  lemma DescriptionIconsAsWritten(d: string)
    ensures DescriptionFeedbackIcon(DescriptionFinding(d).feedback[0]) == DescriptionFinding(d).status
    ensures d != "" ==> DescriptionFeedbackIcon(DescriptionFinding(d).feedback[1]) ==
                        if HasCallToAction(d) then Error else Warning
  {
    DescriptionNoteIcons();
  }

  /** With the corrected icons the first description line carries the icon of its status, and the
      call-to-action line a success icon when there is one, a warning when there is none. */
  lemma DescriptionIconsFixed(d: string)
    ensures DescriptionIcons(DescriptionFinding(d))[0] == DescriptionFinding(d).status
    ensures d != "" ==> DescriptionIcons(DescriptionFinding(d))[1] ==
                        if HasCallToAction(d) then Success else Warning
  {
    DescriptionNoteIconsFixed();
  }
}
