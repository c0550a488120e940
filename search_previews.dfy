/** The desktop and mobile search-result previews (Frontend/src/components/searchPreviews.tsx):
    the title and description shown, with their fallbacks, and the mobile truncation. Lengths
    count characters. */
module SearchPreviews {
  import opened Strings
  import opened SeoTypes
  import opened SeoAnalyzer
  import opened SeoAnalyzerProperties

  const NoTitleAvailable := "No title available"
  const NoDescriptionAvailable := "No description available"
  const Ellipsis := "..."

  const MobileTitleLength := 40
  const MobileDescriptionLength := 80

  /** `truncateString`: unchanged when it fits, otherwise the first `length` characters and an
      ellipsis (`substring` reads a negative end as 0). */
  function Truncate(s: string, length: int): (r: string)
    ensures |s| <= length ==> r == s
    ensures |s| > length ==> |r| >= 3 && r[|r| - 3..] == Ellipsis && r[..|r| - 3] <= s
  {
    if |s| <= length then s
    else
      var end := if length < 0 then 0 else length;
      var r := s[..end] + Ellipsis;
      assert r[..end] == s[..end] && r[end..] == Ellipsis;
      r
  }

  function DesktopTitle(m: MetaTagsReport): string
  {
    OrElse(m.title.content, NoTitleAvailable)
  }

  function DesktopDescription(m: MetaTagsReport): string
  {
    OrElse(m.description.content, NoDescriptionAvailable)
  }

  function MobileTitle(m: MetaTagsReport): string
  {
    Truncate(DesktopTitle(m), MobileTitleLength)
  }

  function MobileDescription(m: MetaTagsReport): string
  {
    Truncate(DesktopDescription(m), MobileDescriptionLength)
  }

  /** A cut string is exactly `length + 3` characters long and starts with the first `length`
      characters of the original; nothing is ever longer than `length + 3`. */
  lemma TruncateRules(s: string, length: nat)
    ensures |Truncate(s, length)| <= length + 3
    ensures |s| <= length ==> Truncate(s, length) == s
    ensures |s| > length ==> |Truncate(s, length)| == length + 3
    ensures |s| > length ==> Truncate(s, length)[..length] == s[..length]
    ensures |s| > length ==> Truncate(s, length)[length..] == Ellipsis
  {
    if |s| > length {
      var r := Truncate(s, length);
      assert |r| == length + 3;
    }
  }

  /** Cutting twice to the same length cuts once. */
  lemma TruncateIdempotent(s: string, length: nat)
    ensures Truncate(Truncate(s, length), length) == Truncate(s, length)
  {
    var r := Truncate(s, length);
    if |s| > length {
      TruncateRules(s, length);
      assert r[..length] + Ellipsis == r;
    }
  }

  /** The desktop preview shows the title, or "No title available" when there is none; the mobile
      preview shows the same text, cut after 40 characters. */
  lemma TitlePreviews(p: Page)
    ensures var m := MetaTagsOf(p);
            && (p.title == "" ==> DesktopTitle(m) == NoTitleAvailable && MobileTitle(m) == NoTitleAvailable)
            && (p.title != "" ==> DesktopTitle(m) == p.title)
            && (|p.title| <= 40 ==> MobileTitle(m) == DesktopTitle(m))
            && (|p.title| > 40 ==> MobileTitle(m) == p.title[..40] + Ellipsis)
  {
    TitleRules(p.title);
  }

  /** The same for the description, cut after 80 characters on mobile. */
  lemma DescriptionPreviews(p: Page)
    ensures var m := MetaTagsOf(p);
            && (p.description == "" ==>
                  DesktopDescription(m) == NoDescriptionAvailable && MobileDescription(m) == NoDescriptionAvailable)
            && (p.description != "" ==> DesktopDescription(m) == p.description)
            && (|p.description| <= 80 ==> MobileDescription(m) == DesktopDescription(m))
            && (|p.description| > 80 ==> MobileDescription(m) == p.description[..80] + Ellipsis)
  {
    DescriptionRules(p.description);
  }

  /** Every description the engine rates good (120 to 160 characters) is cut on mobile. */
  lemma GoodDescriptionAlwaysCut(p: Page)
    requires MetaTagsOf(p).description.status == Success
    ensures MobileDescription(MetaTagsOf(p)) == p.description[..80] + Ellipsis
  {
    DescriptionRules(p.description);
    DescriptionPreviews(p);
  }
}
