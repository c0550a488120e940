# SEO Analyzer — a verified model in Dafny

SEO Analyzer takes the address of a web page, downloads it and grades its meta tags. The backend
engine (`analyzeSEO`) rates the title and the meta description by length. It collects the
Open Graph and Twitter Card tags and adds a "Not found" placeholder for each required tag that is
missing. It reads four technical values: viewport, robots, canonical url and language. From these
it computes a meta-tags score, an overall score and three lists of recommendations: critical,
important and suggested. The server keeps the analyses in an in-memory store (`MemStorage`). It looks up the earliest stored
analysis of the url and reuses it only when that one is less than an hour old. The frontend shows the
result in several panels:

- badges and feedback icons for the title, the description and the three tag lists;
- Facebook, Twitter and LinkedIn previews;
- desktop and mobile search previews, the mobile one truncated;
- a technical-details panel with a proposed HTML head and a seven-item SEO checklist.

The model has these modules:

| module | file | what it holds |
|---|---|---|
| `Strings` | `strings.dfy` | `includes`, `||` on strings and an ASCII `toLowerCase` |
| `SeoTypes` | `seo_types.dfy` | the shared records: meta tag, finding, category score, analysis result |
| `SeoAnalyzer` | `seo_analyzer.dfy` | the engine, see below |
| `SeoAnalyzerProperties` | `seo_analyzer_properties.dfy` | what the engine guarantees |
| `Storage` | `storage.dfy` | the class `MemStorage` |
| `StorageProperties` | `storage_properties.dfy` | what the store's queries guarantee |
| `Routes` | `routes.dfy` | the reuse-or-analyse decision of `POST /api/analyze` |
| `MetaTagsView` | `meta_tags_view.dfy` | the meta-tags panel |
| `SocialPreviews` | `social_previews.dfy` | the social previews |
| `SearchPreviews` | `search_previews.dfy` | the search previews |
| `TechnicalDetails` | `technical_details.dfy` | the technical-details panel |

`SeoAnalyzer` specifies the engine twice. Pure functions state what it computes: `TitleFinding`,
`SocialTags`, `MetaTagsOf`, `Analyze` and others. Methods follow the source's own loops and
appends: `EvaluateTitle`, `CollectSocialTags`, `BuildRecommendations`, `AnalyzeSeo` and others.
Each method is proved to compute exactly its function.

`Storage` is a class whose fields are the two maps and the two id counters, as in the source. Its
creation methods say how they change the state. Its queries are functions that read the state.

`TechnicalDetails.GenerateMetaTagsHtml` builds the HTML document by appending, as the source does.
It is proved to equal `MetaTagsHtml`, and lemmas then relate that document to the page.

Two things about the proposed HTML head follow from the proofs but are not treated as defects:

- The fixed head already holds a viewport meta tag, so a page with its own viewport value gets a
  second one after it (`TechnicalDetails.MetaTagsHtmlOfPage`).
- The `<html lang="en">` attribute is fixed, and the page's language is never written.

Times are integers in milliseconds. The clock is a parameter: `now` stands for `Date.now()` in the
freshness test, `timestamp` for the result's ISO time stamp, and `createdAt` for the stored record's
`created_at`, read again after the page was analysed.

## Model

| member | source | states |
|---|---|---|
| SeoAnalyzer.CalculateScore | Backend/services/seoAnalyzer.ts:5-9 | success exactly at 80 or more, warning exactly from 50 to 79, error exactly below 50 |
| SeoAnalyzerProperties.CalculateScoreMonotone | Backend/services/seoAnalyzer.ts:5-9 | a higher percentage never yields a worse status |
| SeoAnalyzerProperties.NormalizeUrlRules | Backend/services/seoAnalyzer.ts:14-16 | the analysed url always starts with http:// or https://; a url with a scheme is kept, any other gets https:// in front; normalising twice changes nothing |
| SeoAnalyzer.EvaluateTitle | Backend/services/seoAnalyzer.ts:30-53 | the step-by-step title evaluation yields exactly the title finding |
| SeoAnalyzerProperties.TitleRules | Backend/services/seoAnalyzer.ts:30-53 | error iff no title; if there is a title, warning iff shorter than 30 or longer than 60 and success iff 30 to 60; one length note, then the brand-separator note exactly when the title contains a bar, hyphen or em dash |
| SeoAnalyzerProperties.TitleLengthNoteMatchesStatus | Backend/services/seoAnalyzer.ts:40-48 | the "Optimal length" note appears exactly for a successful title, "too short" exactly below 30, "too long" exactly above 60 |
| SeoAnalyzer.EvaluateDescription | Backend/services/seoAnalyzer.ts:56-84 | the step-by-step description evaluation yields exactly the description finding |
| SeoAnalyzerProperties.DescriptionRules | Backend/services/seoAnalyzer.ts:56-84 | error iff no description; if there is one, warning iff outside 120 to 160 and success iff inside; always two notes, the second "Contains call-to-action" iff one of the four phrases occurs and "Missing call-to-action" otherwise |
| SeoAnalyzerProperties.ShortDescriptionExample | Backend/services/seoAnalyzer.ts:66-83 | a 67-character description with "learn more" is a warning with the notes "too short" and "Contains call-to-action" |
| SeoAnalyzer.CollectSocialTags | Backend/services/seoAnalyzer.ts:87-136 | the discovery loop plus the placeholder loop yield exactly the Open Graph or Twitter list |
| SeoAnalyzerProperties.MapTagsAt | Backend/services/seoAnalyzer.ts:90-99 | discovered tags keep document order, one tag per meta element |
| SeoAnalyzerProperties.HasNameDiscovered | Backend/services/seoAnalyzer.ts:90-99 | a name occurs among the discovered tags iff the page has a meta element with that key |
| SeoAnalyzerProperties.MissingNamesRules | Backend/services/seoAnalyzer.ts:101-110 | the names that get placeholders are the required names the list lacks, each once when the required names are distinct |
| SeoAnalyzerProperties.InjectMissingIsAppend | Backend/services/seoAnalyzer.ts:101-110 | with distinct required names, the placeholder loop appends one placeholder per missing name in required order and changes nothing else |
| SeoAnalyzerProperties.InjectMissingCovers | Backend/services/seoAnalyzer.ts:101-110 | after the placeholder loop every required name is present and the discovered tags are a prefix |
| SeoAnalyzerProperties.RequiredListsDistinct | Backend/services/seoAnalyzer.ts:88-114 | neither required list names a tag twice |
| SeoAnalyzerProperties.SocialTagsShape | Backend/services/seoAnalyzer.ts:87-136 | discovered tags first, each successful iff its content is non-empty, then exactly the placeholders of the required names no meta element has |
| SeoAnalyzerProperties.SocialTagsAtLeastRequired | Backend/services/seoAnalyzer.ts:101-110 | each list has at least as many entries as required names |
| SeoAnalyzerProperties.NoOgTags | Backend/services/seoAnalyzer.ts:101-110 | a page without Open Graph tags gets exactly the five placeholders in required order |
| SeoAnalyzerProperties.NoTwitterTags | Backend/services/seoAnalyzer.ts:127-136 | a page without Twitter tags gets exactly the five placeholders in required order |
| SeoAnalyzer.CollectOtherTags | Backend/services/seoAnalyzer.ts:139-160 | the loop over the four technical values yields exactly their tag list |
| SeoAnalyzerProperties.OtherTagsShape | Backend/services/seoAnalyzer.ts:139-160 | exactly four tags named viewport, robots, canonical, language in that order; an empty value reads "Not found" with an error, any other is shown with success |
| SeoAnalyzerProperties.OtherTagsList | Backend/services/seoAnalyzer.ts:139-160 | the technical list entry by entry, in terms of the page's four values |
| SeoAnalyzer.CollectMetaTags | Backend/services/seoAnalyzer.ts:29-160 | the assembled meta-tags report equals the report specified for the page |
| SeoAnalyzer.ScoreMetaTags | Backend/services/seoAnalyzer.ts:163-178 | the "Meta Tags" category scores the number of successful entries; its percentage is their share of all entries rounded half up, within 0..100; its status follows the 80/50 rule |
| SeoAnalyzerProperties.TotalAtLeastSixteen | Backend/services/seoAnalyzer.ts:163 | the tag total is at least 16, so the percentage never divides by zero |
| SeoAnalyzerProperties.SuccessWithinTotal | Backend/services/seoAnalyzer.ts:163-169 | the successful count never exceeds the total |
| SeoAnalyzerProperties.SuccessCountOfPage | Backend/services/seoAnalyzer.ts:164-169 | a present title or description counts as a success even when its length is a warning |
| SeoAnalyzer.RoundedPercentageRounds | Backend/services/seoAnalyzer.ts:171 | the percentage is 100 * successes / total rounded half up |
| SeoAnalyzer.RoundedPercentageRange | Backend/services/seoAnalyzer.ts:171 | the percentage of a part of a whole lies in 0..100 |
| SeoAnalyzerProperties.MetaTagsCategoryRange | Backend/services/seoAnalyzer.ts:171-178 | the meta-tags category percentage is in 0..100, its score is the success count and its status follows the 80/50 rule |
| SeoAnalyzerProperties.FixedCategories | Backend/services/seoAnalyzer.ts:182-194 | content is always 67 with a warning and performance always 42 with an error |
| SeoAnalyzerProperties.OverallScoreRange | Backend/services/seoAnalyzer.ts:197 | the overall score is the rounded mean of the three percentages and so always lies in 36..70 |
| SeoAnalyzer.AdviseOg | Backend/services/seoAnalyzer.ts:216-220 | the Open Graph loop yields exactly the per-tag Open Graph advice in list order |
| SeoAnalyzer.AdviseTwitter | Backend/services/seoAnalyzer.ts:222-226 | the Twitter loop yields exactly the per-tag Twitter advice in list order |
| SeoAnalyzer.AdviseOther | Backend/services/seoAnalyzer.ts:228-236 | the technical-tag loop splits its advice into the important and the suggested list, each in list order |
| SeoAnalyzer.BuildRecommendations | Backend/services/seoAnalyzer.ts:200-240 | the three recommendation lists built by pushing equal the critical, important and suggested lists specified for the report |
| SeoAnalyzerProperties.CriticalRules | Backend/services/seoAnalyzer.ts:204-214 | "Add a title tag" is critical iff the title is in error, the description message iff the description is in error; at most these two, in that order |
| SeoAnalyzerProperties.RecommendationNamesItsTag | Backend/services/seoAnalyzer.ts:216-226 | two Open Graph (or Twitter) messages are equal only for the same tag name |
| SeoAnalyzerProperties.OgAdviceIff | Backend/services/seoAnalyzer.ts:216-220 | the message for og:title, og:description or og:image appears iff some tag of that name is in error |
| SeoAnalyzerProperties.TwitterAdviceNames | Backend/services/seoAnalyzer.ts:222-226 | every Twitter message names a tag in error that is twitter:title, twitter:description or twitter:image |
| SeoAnalyzerProperties.TwitterAdviceNeverCardOrSite | Backend/services/seoAnalyzer.ts:222-226 | no message is ever given for twitter:card or twitter:site |
| SeoAnalyzerProperties.NoOgTagsAdvice | Backend/services/seoAnalyzer.ts:216-220 | without Open Graph tags the advice is exactly og:title, og:description, og:image, and nothing about og:url or og:type |
| SeoAnalyzerProperties.NoTwitterTagsAdvice | Backend/services/seoAnalyzer.ts:222-226 | without Twitter tags the advice is exactly title, description and image |
| SeoAnalyzerProperties.OtherTagsImportantAdvice | Backend/services/seoAnalyzer.ts:228-236 | a missing robots value, then a missing canonical url, are the important technical messages |
| SeoAnalyzerProperties.OtherTagsSuggestedAdvice | Backend/services/seoAnalyzer.ts:228-236 | a missing viewport, then a missing language, are the suggested technical messages |
| SeoAnalyzerProperties.KeywordSuggestion | Backend/services/seoAnalyzer.ts:238-240 | the keyword suggestion appears iff the lower-cased description lacks "keyword", always as the last suggestion and always when the description is empty |
| SeoAnalyzer.AnalyzeSeo | Backend/services/seoAnalyzer.ts:11-276 | the analysis of a parsed page equals the specified result: normalised url, overall score, report, categories and recommendations |
| SeoAnalyzerProperties.OnlyTimestampVaries | Backend/services/seoAnalyzer.ts:243-276 | two analyses of the same page differ only in their time stamp |
| SeoTypes.FirstNamed | Frontend/src/components/socialPreviews.tsx:13 | `find` by name: none iff no tag has the name, otherwise the earliest tag of that name |
| Strings.OrElse | Frontend/src/components/metaTags.tsx:112 | a non-empty string is kept, an empty one replaced by the fallback |
| Strings.ToLowerAscii | Backend/services/seoAnalyzer.ts:238 | same length, each ASCII capital lowered and every other character kept |
| Storage.MemStorage.constructor | Backend/storage.ts:20-25 | both maps empty, both counters at 1 |
| Storage.MemStorage.UserList | Backend/storage.ts:32 | the users in insertion order, the user at position i having id i + 1 |
| Storage.MemStorage.AnalysisList | Backend/storage.ts:49 | the analyses in insertion order, the analysis at position i having id i + 1 |
| Storage.MemStorage.GetUser | Backend/storage.ts:27-29 | the user stored under the id, none iff the id is not a key |
| Storage.MemStorage.GetUserByUsername | Backend/storage.ts:31-35 | none iff no stored user has the name, otherwise the stored user with that name and the smallest id |
| Storage.MemStorage.CreateUser | Backend/storage.ts:37-42 | the new user gets the current counter as id, the counter grows by one, the user is stored and appended to the insertion order, the analyses are untouched |
| Storage.MemStorage.GetAnalysis | Backend/storage.ts:44-46 | the analysis stored under the id, none iff the id is not a key |
| Storage.MemStorage.GetAnalysisByUrl | Backend/storage.ts:48-52 | none iff no stored analysis has the url, otherwise the stored analysis of that url with the smallest id |
| Storage.MemStorage.CreateAnalysis | Backend/storage.ts:54-59 | the new analysis gets the current counter as id, the counter grows by one, it is stored and appended to the insertion order, the users are untouched |
| Storage.FirstUserNamed | Backend/storage.ts:32-34 | the first position holding the username, every earlier one holding another |
| Storage.FirstWithUrl | Backend/storage.ts:49-51 | the first position holding the url, every earlier one holding another |
| Storage.InsertNewest | Backend/storage.ts:62-65 | one insertion step of the stable sort: one more entry and the same entries plus the new one |
| Storage.SortNewestFirst | Backend/storage.ts:62-65 | the sort is a permutation of its input |
| Storage.InsertNewestKeepsOrder | Backend/storage.ts:62-65 | inserting a record with a larger id keeps a list newest first, ties by id |
| Storage.SortNewestFirstOrders | Backend/storage.ts:62-65 | on an insertion-ordered list the sort is by creation time descending, ties kept in insertion order |
| Storage.Take | Backend/storage.ts:66 | `slice(0, limit)`: a prefix of min(limit, size) entries, a negative limit counting from the end |
| StorageProperties.AnalysisListIdsIncreasing | Backend/storage.ts:54-59 | the insertion order has strictly increasing ids |
| StorageProperties.TakeOfNewestFirst | Backend/storage.ts:66 | a prefix of a newest-first list is newest first and nothing left out is more recent than what it keeps |
| StorageProperties.TakeNewestRules | Backend/storage.ts:61-67 | the listing holds entries of the list only, newest first, and nothing left out is more recent |
| StorageProperties.ListRecentAnalysesCount | Backend/storage.ts:61-67 | the listing has min(limit, size) records; a negative limit drops that many from the end |
| StorageProperties.TakeNewestOfMapMembers | Backend/storage.ts:61-67 | every listed record is stored under its own id |
| StorageProperties.StoredNewestFirstDistinct | Backend/storage.ts:61-67 | a newest-first list of stored records lists each id once |
| StorageProperties.TakeNewestOfMapTop | Backend/storage.ts:61-67 | the listing is newest first and no stored record left out is more recent than a listed one |
| StorageProperties.ListRecentAnalysesRules | Backend/storage.ts:61-67 | the listing holds stored records, each once, newest first with ties in insertion order, and no unlisted record is more recent than a listed one |
| StorageProperties.RecentFive | Backend/routes.ts:67 | the recent-analyses route shows five records, or all of them when fewer are stored |
| StorageProperties.FirstWithUrlStable | Backend/storage.ts:48-52 | once a url is stored, storing more never changes which record the lookup by url returns |
| StorageProperties.FirstUserNamedStable | Backend/storage.ts:31-35 | once a username is stored, storing more never changes which user the lookup by name returns |
| Routes.ReusableAsWritten | Backend/routes.ts:30-40 | as written, an analysis is reused iff the earliest stored analysis of the url is less than an hour old, and then it is that one |
| Routes.ReusableAsWrittenOfStore | Backend/routes.ts:30-34 | the as-written reuse is the store's lookup by url kept only when it is less than an hour old |
| Routes.StaleFirstHidesFreshAnalysis | Backend/routes.ts:30-40 | as written, a fresh analysis stored after a stale one of the same url is never reused |
| Routes.AsWrittenStaysStale | Backend/routes.ts:30-40 | as written, once the earliest analysis of a url is stale nothing is reused for that url again, whatever is stored later |
| Routes.NewestWithUrl | Backend/routes.ts:30 | corrected lookup: none iff no stored analysis has the url, otherwise a stored analysis of the url that no other one of that url is more recent than |
| Routes.Reusable | Backend/routes.ts:30-40 | corrected: an analysis is reused iff some stored analysis of the url is less than an hour old, and then it is the most recent one |
| Routes.AnalyzeRoute | Backend/routes.ts:29-57 | as written: when the earliest stored analysis of the url is less than an hour old it is returned and the store is unchanged; otherwise the page's analysis is stored under the next id with the creation time read after the analysis and returned; users are never touched |
| Routes.AnalyzeRouteFixed | Backend/routes.ts:29-57 | corrected: as above, but the analysis reused is the most recent fresh one of the url |
| MetaTagsView.StatusBadge | Frontend/src/components/metaTags.tsx:41-50 | "Excellent" iff success, "Good" iff warning, "Needs Improvement" iff error |
| MetaTagsView.TitleBadgeRules | Frontend/src/components/metaTags.tsx:94 | the title card reads "Excellent" iff the title has 30 to 60 characters and "Needs Improvement" iff there is none |
| MetaTagsView.DescriptionBadgeRules | Frontend/src/components/metaTags.tsx:136 | the description card reads "Excellent" iff the description has 120 to 160 characters and "Needs Improvement" iff there is none |
| MetaTagsView.DisplayTitle | Frontend/src/components/metaTags.tsx:112 | a title is shown as is; "No title tag found" is shown iff there is no title or the title is that very text |
| MetaTagsView.DisplayDescription | Frontend/src/components/metaTags.tsx:154 | a description is shown as is; the fallback text is shown iff there is none or it is that very text |
| MetaTagsView.CountImportantSuccess | Frontend/src/components/metaTags.tsx:70 | the badge's count never exceeds the number of successful tags |
| MetaTagsView.CountImportantSuccessIndices | Frontend/src/components/metaTags.tsx:70 | the badge's count is the number of positions holding a successful tag with an important name, duplicates included |
| MetaTagsView.TagsStatusBadgeRules | Frontend/src/components/metaTags.tsx:69-80 | as written: "Complete" iff that count equals the number of important names, "Missing" iff it is zero and there are names, "Partial" iff it is positive and differs |
| MetaTagsView.DuplicatedOgCount | Frontend/src/components/metaTags.tsx:70 | as written, a list with og:title, og:description, og:image twice and og:url counts five important successes |
| MetaTagsView.DuplicateTagMakesPartial | Frontend/src/components/metaTags.tsx:69-80 | as written, a list with all four important names successful plus a second og:image is "Partial"; the corrected badge says "Complete" |
| MetaTagsView.RepeatedTagMakesComplete | Frontend/src/components/metaTags.tsx:69-80 | as written, four successful og:title tags make "Complete" though og:image is missing; the corrected badge says "Partial" |
| MetaTagsView.FoundNames | Frontend/src/components/metaTags.tsx:69-80 | the corrected count never exceeds the number of important names |
| MetaTagsView.FoundNamesAll | Frontend/src/components/metaTags.tsx:69-80 | the corrected count reaches the number of names iff every name has a successful tag |
| MetaTagsView.FoundNamesNone | Frontend/src/components/metaTags.tsx:69-80 | the corrected count is zero iff no name has a successful tag |
| MetaTagsView.TagsStatusBadgeByNameRules | Frontend/src/components/metaTags.tsx:69-80 | corrected badge: "Complete" iff every important name has a successful tag, "Missing" iff none has, "Partial" iff some have and some do not |
| MetaTagsView.HasSuccessSnoc | Frontend/src/components/metaTags.tsx:70 | a name has a successful tag in a list with one more tag iff it had one before or the new tag is a successful tag of that name |
| MetaTagsView.FoundNamesSnoc | Frontend/src/components/metaTags.tsx:69-80 | one more tag raises the corrected count by one exactly when it is a successful tag of an important name that had none |
| MetaTagsView.CountImportantSuccessIsFoundNames | Frontend/src/components/metaTags.tsx:69-80 | where no important name has two successful tags, the count as written equals the corrected count |
| MetaTagsView.PlaceholdersFail | Backend/services/seoAnalyzer.ts:101-110 | every placeholder after the discovered tags is in error |
| MetaTagsView.HasSuccessSocial | Frontend/src/components/metaTags.tsx:70 | a name has a successful tag in the engine's list iff the page has a non-empty tag of that name; placeholders never count |
| MetaTagsView.OgBadgeFixedOfPage | Frontend/src/components/metaTags.tsx:180 | corrected: the Open Graph card is "Complete" iff the page has non-empty og:title, og:description, og:image and og:url |
| MetaTagsView.TwitterBadgeFixedOfPage | Frontend/src/components/metaTags.tsx:215 | corrected: the Twitter card is "Complete" iff the page has non-empty twitter:card, twitter:title, twitter:description and twitter:image |
| MetaTagsView.SocialNoDuplicateSuccess | Backend/services/seoAnalyzer.ts:87-136 | a page that repeats no non-empty important key yields an Open Graph or Twitter list where no important name has two successful tags |
| MetaTagsView.SocialBadgeMissing | Frontend/src/components/metaTags.tsx:69-80 | as written, the Open Graph or Twitter card reads "Missing" iff the page has no non-empty tag with an important key |
| MetaTagsView.OgBadgeOfPage | Frontend/src/components/metaTags.tsx:180 | as written: the Open Graph card is "Missing" iff the page has no non-empty og:title, og:description, og:image or og:url; where none of those keys is repeated it equals the corrected card, so it is "Complete" iff all four are present |
| MetaTagsView.TwitterBadgeOfPage | Frontend/src/components/metaTags.tsx:215 | as written: the Twitter card is "Missing" iff the page has no non-empty twitter:card, twitter:title, twitter:description or twitter:image; where none of those keys is repeated it equals the corrected card, so it is "Complete" iff all four are present |
| MetaTagsView.OtherTagsSuccess | Frontend/src/components/metaTags.tsx:250 | each technical name has a successful tag iff the page has that value |
| MetaTagsView.OtherBadgeFixedOfPage | Frontend/src/components/metaTags.tsx:250 | corrected: the technical card is "Complete" iff all four values are present and "Missing" iff none is |
| MetaTagsView.OtherTagsNoDuplicate | Backend/services/seoAnalyzer.ts:139-160 | each technical name occurs once in the engine's list, so none has two successful tags |
| MetaTagsView.OtherBadgeOfPage | Frontend/src/components/metaTags.tsx:250 | as written, the technical card equals the corrected one: "Complete" iff all four values are present and "Missing" iff none is |
| MetaTagsView.TitleIcons | Frontend/src/components/metaTags.tsx:117-121 | one icon per title feedback line, chosen by the corrected rule |
| MetaTagsView.DescriptionIcons | Frontend/src/components/metaTags.tsx:159-163 | one icon per description feedback line, chosen by the corrected rule |
| MetaTagsView.TitleNoteIcons | Frontend/src/components/metaTags.tsx:119 | as written: optimal is success, too short and too long are warnings, a missing title and the brand-separator note are errors |
| MetaTagsView.TitleNoteIconsFixed | Frontend/src/components/metaTags.tsx:119 | corrected: the brand-separator note is a success, the other notes as before |
| MetaTagsView.DescriptionNoteIcons | Frontend/src/components/metaTags.tsx:161 | as written: good length is success, too short, too long and missing call-to-action are warnings, a missing description and "Contains call-to-action" are errors |
| MetaTagsView.DescriptionNoteIconsFixed | Frontend/src/components/metaTags.tsx:161 | corrected: "Contains call-to-action" is a success, the other notes as before |
| MetaTagsView.TitleIconsAsWritten | Frontend/src/components/metaTags.tsx:119 | as written, the first title line's icon is the title status, and the brand-separator line of any title that has one shows an error |
| MetaTagsView.TitleIconsFixed | Frontend/src/components/metaTags.tsx:119 | corrected, the first title line's icon is the title status and the brand-separator line shows success |
| MetaTagsView.DescriptionIconsAsWritten | Frontend/src/components/metaTags.tsx:161 | as written, the first line's icon is the description status; the second shows an error when there is a call to action and a warning when there is none |
| MetaTagsView.DescriptionIconsFixed | Frontend/src/components/metaTags.tsx:161 | corrected, the second line shows success when there is a call to action and a warning when there is none |
| SocialPreviews.FindTag | Frontend/src/components/socialPreviews.tsx:12-14 | never empty; "Not available" when no tag has the name; any other value is the content of the first tag of that name, and the first tag of the name gives its content when non-empty and "Not available" otherwise |
| SocialPreviews.FindTagFixed | Frontend/src/components/socialPreviews.tsx:12-14 | corrected lookup: as above, and never the "Not found" placeholder; the first tag of the name gives its content unless that is empty or "Not found" |
| SocialPreviews.FirstNamedIsFirst | Frontend/src/components/socialPreviews.tsx:13 | `find` returns the tag of the name that no earlier tag of that name precedes |
| SocialPreviews.FirstNamedAppend | Frontend/src/components/socialPreviews.tsx:13 | `find` over two lists looks in the second only when the first lacks the name |
| SocialPreviews.SocialLookup | Frontend/src/components/socialPreviews.tsx:13 | looking up a required name finds the first discovered tag of that name, or else its placeholder |
| SocialPreviews.LookupShowsPlaceholder | Frontend/src/components/socialPreviews.tsx:13 | as written, a required tag the page lacks reads "Not found", not "Not available" |
| SocialPreviews.FixedLookupSkipsPlaceholders | Frontend/src/components/socialPreviews.tsx:13 | the corrected lookup gives on the engine's list what it gives on the discovered tags alone |
| SocialPreviews.PlaceholdersReachPreviews | Frontend/src/components/socialPreviews.tsx:17-129 | as written, without og:title, og:image and twitter:card the Facebook and LinkedIn cards are titled "Not found", load an image from "Not found", omit the missing-image note, and the card type reads "Not found" |
| SocialPreviews.PlaceholdersHiddenFixed | Frontend/src/components/socialPreviews.tsx:17-129 | corrected, the same page shows its own title, the no-image panel, the missing-image note and the "None" card type |
| SocialPreviews.FacebookCardFixed | Frontend/src/components/socialPreviews.tsx:54-85 | corrected Facebook card: first discovered og:title or else the page title, likewise the description; no image iff no usable og:image, the note iff no image; LinkedIn shows the same card |
| SearchPreviews.Truncate | Frontend/src/components/searchPreviews.tsx:20-23 | a string that fits is unchanged; a longer one ends in "..." after a prefix of the original |
| SearchPreviews.TruncateRules | Frontend/src/components/searchPreviews.tsx:20-23 | the result is at most length + 3 long; a cut string is exactly length + 3 long, the first length characters followed by "..." |
| SearchPreviews.TruncateIdempotent | Frontend/src/components/searchPreviews.tsx:20-23 | cutting twice to the same length is cutting once |
| SearchPreviews.TitlePreviews | Frontend/src/components/searchPreviews.tsx:35-63 | desktop shows the title or "No title available"; mobile shows the same, cut after 40 characters |
| SearchPreviews.DescriptionPreviews | Frontend/src/components/searchPreviews.tsx:41-69 | desktop shows the description or "No description available"; mobile shows the same, cut after 80 characters |
| SearchPreviews.GoodDescriptionAlwaysCut | Frontend/src/components/searchPreviews.tsx:69 | every description the engine rates a success is cut on mobile |
| TechnicalDetails.GenerateMetaTagsHtml | Frontend/src/components/technicalDetails.tsx:17-62 | the document built by appending equals the specified document: fixed head, title and description lines, the tag lines of the three lists, fixed tail |
| TechnicalDetails.AppendOgTags | Frontend/src/components/technicalDetails.tsx:33-37 | the Open Graph loop appends one property line per tag with real content, in order |
| TechnicalDetails.AppendTwitterTags | Frontend/src/components/technicalDetails.tsx:40-44 | the Twitter loop appends one name line per tag with real content, in order |
| TechnicalDetails.AppendOtherTags | Frontend/src/components/technicalDetails.tsx:47-57 | the technical loop appends a link for the canonical url, nothing for the language, a name line for the rest, in order |
| TechnicalDetails.LinesAppend | Frontend/src/components/technicalDetails.tsx:33-57 | the lines of two lists together are the lines of each, in order |
| TechnicalDetails.LinesContain | Frontend/src/components/technicalDetails.tsx:33-57 | each tag's contribution occurs in the lines of its list |
| TechnicalDetails.SocialLinesInHtml | Frontend/src/components/technicalDetails.tsx:33-44 | the Open Graph and the Twitter lines both lie inside the document |
| TechnicalDetails.EmittedContentAppears | Frontend/src/components/technicalDetails.tsx:33-44 | every Open Graph or Twitter tag with real content has its line and its content in the document |
| TechnicalDetails.PlaceholderLinesSilent | Frontend/src/components/technicalDetails.tsx:34 | the "Not found" placeholders write nothing |
| TechnicalDetails.SocialLinesOfPage | Frontend/src/components/technicalDetails.tsx:33-44 | the social lines of the engine's lists are exactly those of the page's own tags |
| TechnicalDetails.ViewportLine | Frontend/src/components/technicalDetails.tsx:53-54 | a viewport value is written as a name line unless it is empty or the text "Not found" |
| TechnicalDetails.RobotsLine | Frontend/src/components/technicalDetails.tsx:53-54 | a robots value is written as a name line unless it is empty or the text "Not found" |
| TechnicalDetails.CanonicalTagLine | Frontend/src/components/technicalDetails.tsx:49-50 | a canonical url is written as a link unless it is empty or the text "Not found" |
| TechnicalDetails.LanguageLine | Frontend/src/components/technicalDetails.tsx:51-52 | the language writes nothing |
| TechnicalDetails.OtherLinesOfPage | Frontend/src/components/technicalDetails.tsx:47-57 | the technical lines are the page's viewport, robots and canonical lines, each only when the page has that value |
| TechnicalDetails.MetaTagsHtmlOfPage | Frontend/src/components/technicalDetails.tsx:17-62 | the document for a page in terms of the page's own values |
| TechnicalDetails.EmptyPageHtml | Frontend/src/components/technicalDetails.tsx:17-62 | a page with no title, description, social tags, viewport, robots or canonical url gets the bare template |
| TechnicalDetails.CountSuccessDiscovered | Frontend/src/components/technicalDetails.tsx:169 | the discovered tags' successes are the page's non-empty tags |
| TechnicalDetails.CountSuccessPlaceholders | Frontend/src/components/technicalDetails.tsx:169 | placeholders are never successes |
| TechnicalDetails.CountSuccessSocial | Frontend/src/components/technicalDetails.tsx:169-182 | the successes in the engine's Open Graph or Twitter list are the page's non-empty tags |
| TechnicalDetails.FirstCanonical | Frontend/src/components/technicalDetails.tsx:195 | the canonical lookup finds the tag built from the page's canonical url |
| TechnicalDetails.FirstRobots | Frontend/src/components/technicalDetails.tsx:208 | the robots lookup finds the tag built from the page's robots value |
| TechnicalDetails.FirstViewport | Frontend/src/components/technicalDetails.tsx:221 | the viewport lookup finds the tag built from the page's viewport value |
| TechnicalDetails.ChecklistOfPage | Frontend/src/components/technicalDetails.tsx:143-221 | title, description, canonical, robots and viewport are ticked iff the page has them; Open Graph iff at least four non-empty og tags; Twitter iff at least three non-empty twitter tags |

## Left out

- Fetching and parsing are not modelled: the axios request with its user agent and 5-second timeout, and the cheerio selectors. The model starts from `Page`, what the parser read.
- The `catch` that turns any failure into `null`, and the route's 500 answer for it, are not modelled.
- The clock is a parameter. Its three readings, `Date.now()` for the freshness test and the two `new Date().toISOString()` calls for the result and for `created_at`, become `now`, `timestamp` and `createdAt`; nothing relates them, so the model does not assume the clock moves forward.
- `created_at` is an integer time, not an ISO string. Formatting and parsing are not modelled, nor an unparsable date, which would compare as NaN inside the sort.
- `trim()` is not modelled: `Page.title` is the already trimmed text.
- Lengths are counted in characters, while JavaScript counts UTF-16 code units. They differ only for characters outside the Basic Multilingual Plane.
- Strings.ToLowerAscii: lowers only A to Z, where `toLowerCase` lowers all of Unicode. The keyword test ("keyword" is ASCII) differs only for exotic case mappings.
- SeoAnalyzer.RoundedPercentage: rounds the exact value 100 * s / c half up, while `Math.round` works on a binary floating-point product. Where that product lands just below a half, the source may round down.
- Route input validation is not modelled: the zod url check, the 400 answer, JSON bodies and status codes. `Routes.AnalyzeRoute` takes a url that passed validation.
- The `/api/recent` route is only present as the `RecentFive` call of the listing.
- Concurrency is not modelled. Each request runs to completion, so two requests interleaving between the lookup and `createAnalysis` are outside the model.
- `listRecentAnalyses` with a non-integer limit is not modelled. `slice` truncates it, and the model takes integers.
- React rendering, the clipboard, the toast and `formatJson` are left out because they are presentation only. So are `getURLForPreview`, `getDomainFromUrl` and the mobile breadcrumb line (searchPreviews.tsx:66).
- The `ogUrl` and `twitterSite` lookups (socialPreviews.tsx:20 and 27) are computed and never shown. They are left out.
- `getFeedbackIcon` (metaTags.tsx:52-67) is modelled as the status it is given, not as the icon markup.
- The `IStorage` interface and the `storage` singleton are not modelled. One `MemStorage` object stands for the singleton.
- Passwords are stored and compared as given, as in the source.

## Findings

| source | as written | input that shows it | evidently intended | confidence | as-written member | corrected member |
|---|---|---|---|---|---|---|
| Backend/routes.ts:30-40 | the freshness test looks only at the earliest stored analysis of the url (`getAnalysisByUrl` returns the first in insertion order) | an analysis of the url stored at time 0 and another at 2 h, with a request at 2 h + 1 ms: the fresh one is ignored and the page is analysed and stored again, on every later request too | reuse the most recent analysis of the url when it is less than an hour old | not executed | Routes.StaleFirstHidesFreshAnalysis | Routes.AnalyzeRouteFixed |
| Frontend/src/components/metaTags.tsx:70-80 | the badge counts successful tags, duplicates included, and compares the count with the number of important names | an Open Graph list with og:title, og:description, og:image twice and og:url reads "Partial"; four og:title tags read "Complete" | count the important names that have a successful tag | not executed | MetaTagsView.DuplicateTagMakesPartial | MetaTagsView.TagsStatusBadgeByNameRules |
| Frontend/src/components/metaTags.tsx:119 | any title note that is neither a length success nor a length warning gets the error icon | a title containing a hyphen: its "Contains brand separator, good for SEO" line shows an error icon | the positive brand-separator note shows a success icon | not executed | MetaTagsView.TitleIconsAsWritten | MetaTagsView.TitleIconsFixed |
| Frontend/src/components/metaTags.tsx:161 | "Contains call-to-action" matches none of the tested words, so it falls through to the error icon | a description containing "learn more": its call-to-action line shows an error icon while a description without one gets only a warning | the positive call-to-action note shows a success icon | not executed | MetaTagsView.DescriptionIconsAsWritten | MetaTagsView.DescriptionIconsFixed |
| Frontend/src/components/socialPreviews.tsx:13 | `findTag` treats only an absent or empty tag as unavailable, and the engine fills every missing required tag with the content "Not found" | a page without og:title, og:image and twitter:card: the Facebook and LinkedIn cards are titled "Not found", try to load the image "Not found", omit the missing-image note, and the card type reads "Not found" | a "Not found" placeholder reads as unavailable, so the page title, the no-image panel, the note and "None" are shown | not executed | SocialPreviews.PlaceholdersReachPreviews | SocialPreviews.PlaceholdersHiddenFixed |
