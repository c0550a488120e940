/** The Facebook, Twitter and LinkedIn previews (Frontend/src/components/socialPreviews.tsx):
    which title, description and image each card shows, the missing-image note of the Facebook
    card and the card type named under the Twitter card. */
module SocialPreviews {
  import opened Strings
  import opened SeoTypes
  import opened SeoAnalyzer
  import opened SeoAnalyzerProperties

  const NotAvailable := "Not available"
  const NoCardType := "None (will fall back to basic link)"
  const MissingOgImageNote := "Missing og:image will result in a less engaging preview."

  /** `findTag` as written: the content of the first tag of that name, "Not available" when there
      is none or its content is empty. The engine's "Not found" placeholders pass through. */
  function FindTag(tags: seq<MetaTag>, name: string): (r: string)
    ensures !HasName(tags, name) ==> r == NotAvailable
    ensures r != ""
    ensures r != NotAvailable ==>
              exists i :: 0 <= i < |tags| && tags[i].name == name && tags[i].content == r &&
                          forall j :: 0 <= j < i ==> tags[j].name != name
    ensures forall i :: 0 <= i < |tags| && tags[i].name == name && (forall j :: 0 <= j < i ==> tags[j].name != name) ==>
              r == if tags[i].content != "" then tags[i].content else NotAvailable
  {
    var found := FirstNamed(tags, name);
    FirstNamedIsFirst(tags, name);
    match found
    case None => NotAvailable
    case Some(t) => OrElse(t.content, NotAvailable)
  }

  /** The corrected lookup: a "Not found" placeholder reads as unavailable, like an empty tag. */
  function FindTagFixed(tags: seq<MetaTag>, name: string): (r: string)
    ensures !HasName(tags, name) ==> r == NotAvailable
    ensures r != "" && r != NotFound
    ensures r != NotAvailable ==>
              exists i :: 0 <= i < |tags| && tags[i].name == name && tags[i].content == r &&
                          forall j :: 0 <= j < i ==> tags[j].name != name
    ensures forall i :: 0 <= i < |tags| && tags[i].name == name && (forall j :: 0 <= j < i ==> tags[j].name != name) ==>
              r == if tags[i].content != "" && tags[i].content != NotFound then tags[i].content else NotAvailable
  {
    var found := FirstNamed(tags, name);
    FirstNamedIsFirst(tags, name);
    match found
    case None => NotAvailable
    case Some(t) => if t.content == "" || t.content == NotFound then NotAvailable else t.content
  }

  /** The first tag of a name is the one `find` returns. */
  lemma FirstNamedIsFirst(tags: seq<MetaTag>, name: string)
    ensures forall i :: 0 <= i < |tags| && tags[i].name == name && (forall j :: 0 <= j < i ==> tags[j].name != name) ==>
              FirstNamed(tags, name) == Some(tags[i])
  {
    forall i | 0 <= i < |tags| && tags[i].name == name && (forall j :: 0 <= j < i ==> tags[j].name != name)
      ensures FirstNamed(tags, name) == Some(tags[i])
    {
      assert HasName(tags, name);
      var k :| 0 <= k < |tags| && tags[k] == FirstNamed(tags, name).value && tags[k].name == name &&
               forall j :: 0 <= j < k ==> tags[j].name != name;
      assert k == i;
    }
  }

  /** `value !== "Not available" ? value : fallback` */
  function Prefer(value: string, fallback: string): string
  {
    if value != NotAvailable then value else fallback
  }

  /** One preview card: the image shown (None for the "no image" panel), title and description. */
  datatype Card = Card(image: Option<string>, title: string, description: string)

  datatype Previews = Previews(facebook: Card, twitter: Card, linkedIn: Card, facebookNote: string, cardType: string)

  /** The three cards, given the lookup they use. LinkedIn shows the Open Graph values like
      Facebook; the description falls back to the meta description. */
  function PreviewsWith(m: MetaTagsReport, find: (seq<MetaTag>, string) -> string): Previews
  {
    var ogTitle := find(m.ogTags, "og:title");
    var ogDescription := find(m.ogTags, "og:description");
    var ogImage := find(m.ogTags, "og:image");
    var twitterTitle := find(m.twitterTags, "twitter:title");
    var twitterDescription := find(m.twitterTags, "twitter:description");
    var twitterImage := find(m.twitterTags, "twitter:image");
    var twitterCard := find(m.twitterTags, "twitter:card");
    var og := Card(if ogImage != NotAvailable then Some(ogImage) else None,
                   Prefer(ogTitle, m.title.content), Prefer(ogDescription, m.description.content));
    Previews(og,
      Card(if twitterImage != NotAvailable then Some(twitterImage) else None,
           Prefer(twitterTitle, m.title.content), Prefer(twitterDescription, m.description.content)),
      og,
      if ogImage == NotAvailable then MissingOgImageNote else "",
      Prefer(twitterCard, NoCardType))
  }

  /** The previews as written. */
  function PreviewsAsWritten(m: MetaTagsReport): Previews
  {
    PreviewsWith(m, FindTag)
  }

  /** The corrected previews. */
  function PreviewsFixed(m: MetaTagsReport): Previews
  {
    PreviewsWith(m, FindTagFixed)
  }

  // ---------------------------------------------------------------- lookups in the engine's lists

  /** `find` over two lists consults the second only when the first has no such name. */
  lemma {:induction false} FirstNamedAppend(a: seq<MetaTag>, b: seq<MetaTag>, name: string)
    ensures FirstNamed(a + b, name) == if HasName(a, name) then FirstNamed(a, name) else FirstNamed(b, name)
  {
    if a == [] {
      assert a + b == b;
    } else if a[0].name != name {
      assert (a + b)[1..] == a[1..] + b;
      FirstNamedAppend(a[1..], b, name);
      assert HasName(a, name) ==> HasName(a[1..], name) by {
        if HasName(a, name) {
          var i :| 0 <= i < |a| && a[i].name == name;
          assert a[1..][i - 1].name == name;
        }
      }
      assert HasName(a[1..], name) ==> HasName(a, name) by {
        if HasName(a[1..], name) {
          var i :| 0 <= i < |a[1..]| && a[1..][i].name == name;
          assert a[i + 1].name == name;
        }
      }
    } else {
      assert a[0].name == name;
    }
  }

  /** The placeholder of a listed name is the first entry of that name. */
  lemma FirstNamedPlaceholders(names: seq<string>, name: string)
    requires name in names
    ensures FirstNamed(Placeholders(names), name) == Some(Placeholder(name))
  {
    PlaceholdersAt(names);
    HasNamePlaceholders(names, name);
  }

  /** Looking a required name up in the engine's Open Graph or Twitter list finds the first
      discovered tag of that name, or else its "Not found" placeholder. */
  lemma SocialLookup(attrs: seq<Attr>, required: seq<string>, name: string)
    requires Distinct(required) && name in required
    ensures var discovered := MapTags(attrs, FoundTag);
            FirstNamed(SocialTags(attrs, required), name) ==
              if HasName(discovered, name) then FirstNamed(discovered, name) else Some(Placeholder(name))
  {
    var discovered := MapTags(attrs, FoundTag);
    var missing := MissingNames(discovered, required);
    InjectMissingIsAppend(discovered, required);
    FirstNamedAppend(discovered, Placeholders(missing), name);
    MissingNamesRules(discovered, required);
    if !HasName(discovered, name) {
      FirstNamedPlaceholders(missing, name);
    }
  }

  /** As written, a required tag the page lacks reads "Not found", not "Not available". */
  lemma LookupShowsPlaceholder(attrs: seq<Attr>, required: seq<string>, name: string)
    requires Distinct(required) && name in required
    requires forall i :: 0 <= i < |attrs| ==> attrs[i].key != name
    ensures FindTag(SocialTags(attrs, required), name) == NotFound
  {
    SocialLookup(attrs, required, name);
    HasNameDiscovered(attrs, name);
  }

  /** The corrected lookup sees through the placeholders: on the engine's list it gives what it
      gives on the discovered tags alone. */
  lemma FixedLookupSkipsPlaceholders(attrs: seq<Attr>, required: seq<string>, name: string)
    requires Distinct(required) && name in required
    ensures FindTagFixed(SocialTags(attrs, required), name) == FindTagFixed(MapTags(attrs, FoundTag), name)
  {
    SocialLookup(attrs, required, name);
  }

  // ---------------------------------------------------------------- the previews

  /** As written, for a page without `og:title`, `og:image` and `twitter:card` tags the Facebook
      and LinkedIn cards are titled "Not found" instead of the page title, try to load an image
      from the address "Not found", the missing-image note is never shown, and the card type reads
      "Not found". */
  lemma PlaceholdersReachPreviews(p: Page)
    requires forall i :: 0 <= i < |p.og| ==> p.og[i].key != "og:title" && p.og[i].key != "og:image"
    requires forall i :: 0 <= i < |p.twitter| ==> p.twitter[i].key != "twitter:card"
    ensures var v := PreviewsAsWritten(MetaTagsOf(p));
            && v.facebook.title == NotFound && v.linkedIn.title == NotFound
            && v.facebook.image == Some(NotFound) && v.linkedIn.image == Some(NotFound)
            && v.facebookNote == ""
            && v.cardType == NotFound
  {
    RequiredListsDistinct();
    LookupShowsPlaceholder(p.og, RequiredOg, "og:title");
    LookupShowsPlaceholder(p.og, RequiredOg, "og:image");
    LookupShowsPlaceholder(p.twitter, RequiredTwitter, "twitter:card");
  }

  /** With the corrected lookup the same page shows its own title, the "no image" panel, the
      missing-image note and the "None" card type. */
  lemma PlaceholdersHiddenFixed(p: Page)
    requires forall i :: 0 <= i < |p.og| ==> p.og[i].key != "og:title" && p.og[i].key != "og:image"
    requires forall i :: 0 <= i < |p.twitter| ==> p.twitter[i].key != "twitter:card"
    ensures var v := PreviewsFixed(MetaTagsOf(p));
            && v.facebook.title == p.title && v.linkedIn.title == p.title
            && v.facebook.image == None && v.linkedIn.image == None
            && v.facebookNote == MissingOgImageNote
            && v.cardType == NoCardType
  {
    RequiredListsDistinct();
    FixedLookupSkipsPlaceholders(p.og, RequiredOg, "og:title");
    FixedLookupSkipsPlaceholders(p.og, RequiredOg, "og:image");
    FixedLookupSkipsPlaceholders(p.twitter, RequiredTwitter, "twitter:card");
    HasNameDiscovered(p.og, "og:title");
    HasNameDiscovered(p.og, "og:image");
    HasNameDiscovered(p.twitter, "twitter:card");
    TitleRules(p.title);
  }

  /** With the corrected lookup the Facebook card shows the first discovered `og:title` or else
      the page title, the first discovered `og:image` or else the "no image" panel, and the note
      exactly when no usable `og:image` was discovered. */
  lemma FacebookCardFixed(p: Page)
    ensures var v := PreviewsFixed(MetaTagsOf(p));
            var discovered := MapTags(p.og, FoundTag);
            && v.facebook.title == Prefer(FindTagFixed(discovered, "og:title"), p.title)
            && v.facebook.description == Prefer(FindTagFixed(discovered, "og:description"), p.description)
            && (v.facebook.image.None? <==> FindTagFixed(discovered, "og:image") == NotAvailable)
            && (v.facebookNote == MissingOgImageNote <==> v.facebook.image.None?)
            && v.linkedIn == v.facebook
  {
    RequiredListsDistinct();
    FixedLookupSkipsPlaceholders(p.og, RequiredOg, "og:title");
    FixedLookupSkipsPlaceholders(p.og, RequiredOg, "og:description");
    FixedLookupSkipsPlaceholders(p.og, RequiredOg, "og:image");
    TitleRules(p.title);
    DescriptionRules(p.description);
  }
}
