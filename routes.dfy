/** The one decision of the `/api/analyze` route (Backend/routes.ts): reuse a stored analysis of
    the same url when it was created within the last hour, otherwise analyse the page and store
    the result. Times are milliseconds; `now` stands for `Date.now()`. */
module Routes {
  import opened SeoTypes
  import opened Storage
  import opened StorageProperties
  import SeoAnalyzer

  const OneHourMs := 60 * 60 * 1000

  /** Created within the last hour. */
  predicate IsFresh(createdAt: int, now: int)
  {
    createdAt > now - OneHourMs
  }

  /** The route as written: only the first stored analysis of the url (`getAnalysisByUrl`) is
      tested for freshness. */
  function ReusableAsWritten(list: seq<Analysis>, url: string, now: int): (r: Option<Analysis>)
    ensures r.Some? ==> r.value in list && r.value.url == url && IsFresh(r.value.createdAt, now)
    ensures r.Some? ==> r.value == list[FirstWithUrl(list, url)]
    ensures r.Some? <==> exists i :: 0 <= i < |list| && list[i].url == url && IsFresh(list[i].createdAt, now) &&
                                     forall j :: 0 <= j < i ==> list[j].url != url
  {
    var i := FirstWithUrl(list, url);
    if i < |list| && IsFresh(list[i].createdAt, now) then Some(list[i]) else None
  }

  /** On the store, the as-written decision is `getAnalysisByUrl` followed by the freshness test. */
  lemma ReusableAsWrittenOfStore(st: MemStorage, url: string, now: int)
    requires st.Valid()
    ensures var hit := st.GetAnalysisByUrl(url);
            ReusableAsWritten(st.AnalysisList(), url, now) == if hit.Some? && IsFresh(hit.value.createdAt, now) then hit else None
  {
  }

  /** Once the first analysis of a url is older than an hour, a fresh one stored after it is never
      reused: every later request analyses the page again and stores yet another record. */
  lemma StaleFirstHidesFreshAnalysis(results: AnalysisResult)
    ensures var first := Analysis(1, "https://example.com", results, 40, 0);
            var second := Analysis(2, "https://example.com", results, 40, 2 * OneHourMs);
            var now := 2 * OneHourMs + 1;
            && IsFresh(second.createdAt, now)
            && ReusableAsWritten([first, second], "https://example.com", now) == None
  {
    var first := Analysis(1, "https://example.com", results, 40, 0);
    var second := Analysis(2, "https://example.com", results, 40, 2 * OneHourMs);
    assert FirstWithUrl([first, second], "https://example.com") == 0;
  }

  /** As written, once the first analysis of a url has gone stale it stays the one consulted:
      whatever is stored afterwards and however late the request, nothing is reused. */
  lemma AsWrittenStaysStale(list: seq<Analysis>, later: seq<Analysis>, url: string, now: int, laterNow: int)
    requires FirstWithUrl(list, url) < |list| && !IsFresh(list[FirstWithUrl(list, url)].createdAt, now)
    requires now <= laterNow
    ensures ReusableAsWritten(list + later, url, laterNow) == None
  {
    FirstWithUrlStable(list, later, url);
    assert (list + later)[FirstWithUrl(list, url)] == list[FirstWithUrl(list, url)];
  }

  /** The most recent stored analysis of the url (the latest inserted among equally recent ones). */
  function NewestWithUrl(s: seq<Analysis>, url: string): (r: Option<Analysis>)
    ensures r.None? <==> forall i :: 0 <= i < |s| ==> s[i].url != url
    ensures r.Some? ==> r.value in s && r.value.url == url
    ensures r.Some? ==> forall i :: 0 <= i < |s| && s[i].url == url ==> s[i].createdAt <= r.value.createdAt
  {
    if s == [] then None
    else
      var prev := NewestWithUrl(s[..|s| - 1], url);
      var x := s[|s| - 1];
      assert forall i :: 0 <= i < |s| - 1 ==> s[..|s| - 1][i] == s[i];
      if x.url != url then prev
      else if prev.Some? && prev.value.createdAt > x.createdAt then prev
      else Some(x)
  }

  /** The corrected lookup: a stored analysis of the url is reused exactly when one of them was
      created within the last hour, and then the most recent one is. */
  function Reusable(list: seq<Analysis>, url: string, now: int): (r: Option<Analysis>)
    ensures r.Some? <==> exists i :: 0 <= i < |list| && list[i].url == url && IsFresh(list[i].createdAt, now)
    ensures r.Some? ==> r.value in list && r.value.url == url && IsFresh(r.value.createdAt, now)
    ensures r.Some? ==> forall i :: 0 <= i < |list| && list[i].url == url ==> list[i].createdAt <= r.value.createdAt
  {
    var newest := NewestWithUrl(list, url);
    if newest.Some? && IsFresh(newest.value.createdAt, now) then newest else None
  }

  /** `POST /api/analyze` for a url that passed validation, as written: the earliest stored analysis
      of the url is returned when it is less than an hour old at `now` and nothing changes;
      otherwise the page is analysed (the result stamped `timestamp`) and stored under the next id
      with `createdAt`, the clock read after the analysis, as its creation time. */
  method AnalyzeRoute(st: MemStorage, url: string, page: SeoAnalyzer.Page, now: int, timestamp: string,
                      createdAt: int)
    returns (a: Analysis)
    requires st.Valid()
    modifies st
    ensures st.Valid()
    ensures st.users == old(st.users) && st.userCurrentId == old(st.userCurrentId)
    ensures var hit := ReusableAsWritten(old(st.AnalysisList()), url, now);
            hit.Some? ==> a == hit.value && st.analyses == old(st.analyses) &&
                          st.analysisCurrentId == old(st.analysisCurrentId)
    ensures var hit := ReusableAsWritten(old(st.AnalysisList()), url, now);
            var result := SeoAnalyzer.Analyze(page, url, timestamp);
            hit.None? ==> a == Analysis(old(st.analysisCurrentId), url, result, result.score, createdAt) &&
                          st.AnalysisList() == old(st.AnalysisList()) + [a]
  {
    ReusableAsWrittenOfStore(st, url, now);
    var existing := st.GetAnalysisByUrl(url);
    if existing.Some? && IsFresh(existing.value.createdAt, now) {
      return existing.value;
    }
    var result := SeoAnalyzer.AnalyzeSeo(url, page, timestamp);
    a := st.CreateAnalysis(InsertAnalysis(url, result, result.score, createdAt));
  }

  /** `POST /api/analyze` for a url that passed validation, with the corrected lookup: either the
      fresh stored analysis is returned and nothing changes, or the page is analysed and the result
      is stored under the next id with `createdAt` as its creation time. */
  method AnalyzeRouteFixed(st: MemStorage, url: string, page: SeoAnalyzer.Page, now: int, timestamp: string,
                           createdAt: int)
    returns (a: Analysis)
    requires st.Valid()
    modifies st
    ensures st.Valid()
    ensures st.users == old(st.users) && st.userCurrentId == old(st.userCurrentId)
    ensures var hit := Reusable(old(st.AnalysisList()), url, now);
            hit.Some? ==> a == hit.value && st.analyses == old(st.analyses) &&
                          st.analysisCurrentId == old(st.analysisCurrentId)
    ensures var hit := Reusable(old(st.AnalysisList()), url, now);
            var result := SeoAnalyzer.Analyze(page, url, timestamp);
            hit.None? ==> a == Analysis(old(st.analysisCurrentId), url, result, result.score, createdAt) &&
                          st.AnalysisList() == old(st.AnalysisList()) + [a]
  {
    var existing := Reusable(st.AnalysisList(), url, now);
    if existing.Some? {
      return existing.value;
    }
    var result := SeoAnalyzer.AnalyzeSeo(url, page, timestamp);
    a := st.CreateAnalysis(InsertAnalysis(url, result, result.score, createdAt));
  }
}
