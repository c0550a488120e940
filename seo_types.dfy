/** The record shapes shared by the backend and the frontend: a meta tag finding,
    the title and description findings, category scores and the analysis result,
    with the list queries (`filter(...).length`, `some`, `find`) the source runs over tag lists. */
module SeoTypes {

  datatype Option<T> = None | Some(value: T)

  /** 'success' | 'warning' | 'error' */
  datatype Status = Success | Warning | Error

  /** Orders the statuses from worst to best. */
  function Rank(s: Status): nat
  {
    match s
    case Error => 0
    case Warning => 1
    case Success => 2
  }

  /** No element occurs twice. */
  predicate Distinct<T(==)>(s: seq<T>)
  {
    forall i, j :: 0 <= i < j < |s| ==> s[i] != s[j]
  }

  datatype MetaTag = MetaTag(name: string, content: string, status: Status)

  /** The title or description finding: text, its length, status and feedback lines. */
  datatype TextFinding = TextFinding(content: string, length: nat, status: Status, feedback: seq<string>)

  datatype CategoryScore = CategoryScore(name: string, score: int, percentage: int, status: Status)

  datatype MetaTagsReport = MetaTagsReport(
    title: TextFinding,
    description: TextFinding,
    ogTags: seq<MetaTag>,
    twitterTags: seq<MetaTag>,
    otherTags: seq<MetaTag>)

  datatype Categories = Categories(metaTags: CategoryScore, content: CategoryScore, performance: CategoryScore)

  datatype Recommendations = Recommendations(critical: seq<string>, important: seq<string>, suggested: seq<string>)

  /** `timestamp` is an opaque string supplied by the caller (the source reads the clock). */
  datatype AnalysisResult = AnalysisResult(
    url: string,
    score: int,
    timestamp: string,
    metaTags: MetaTagsReport,
    categories: Categories,
    recommendations: Recommendations)

  /** `tags.filter(tag => tag.status === 'success').length` */
  function CountSuccess(tags: seq<MetaTag>): nat
  {
    if tags == [] then 0
    else CountSuccess(tags[..|tags| - 1]) + (if tags[|tags| - 1].status == Success then 1 else 0)
  }

  /** `tags.some(tag => tag.name === name)` */
  predicate HasName(tags: seq<MetaTag>, name: string)
  {
    exists i :: 0 <= i < |tags| && tags[i].name == name
  }

  /** `tags.find(tag => tag.name === name)` */
  function FirstNamed(tags: seq<MetaTag>, name: string): (r: Option<MetaTag>)
    ensures r.None? <==> !HasName(tags, name)
    ensures r.Some? ==> exists i :: 0 <= i < |tags| && tags[i] == r.value && r.value.name == name &&
                                    forall j :: 0 <= j < i ==> tags[j].name != name
  {
    if tags == [] then None
    else if tags[0].name == name then Some(tags[0])
    else
      var r := FirstNamed(tags[1..], name);
      assert r.Some? ==> exists i :: 0 <= i < |tags[1..]| && tags[1..][i] == r.value && r.value.name == name &&
                                     forall j :: 0 <= j < i ==> tags[1..][j].name != name;
      assert HasName(tags, name) ==> tags[0].name == name || HasName(tags[1..], name) by {
        if HasName(tags, name) {
          var i :| 0 <= i < |tags| && tags[i].name == name;
          if i > 0 { assert tags[1..][i - 1].name == name; }
        }
      }
      if r.Some? then
        var i :| 0 <= i < |tags[1..]| && tags[1..][i] == r.value && r.value.name == name &&
                 forall j :: 0 <= j < i ==> tags[1..][j].name != name;
        assert tags[i + 1] == r.value;
        r
      else r
  }

  /** The set of names in a tag list. */
  function NameSet(tags: seq<MetaTag>): set<string>
  {
    set i | 0 <= i < |tags| :: tags[i].name
  }

  /** At most as many successes as tags. */
  lemma {:induction false} CountSuccessBound(tags: seq<MetaTag>)
    ensures CountSuccess(tags) <= |tags|
  {
    if tags != [] {
      CountSuccessBound(tags[..|tags| - 1]);
    }
  }

  /** Counting distributes over concatenation. */
  lemma {:induction false} CountSuccessAppend(a: seq<MetaTag>, b: seq<MetaTag>)
    ensures CountSuccess(a + b) == CountSuccess(a) + CountSuccess(b)
  {
    if b != [] {
      assert (a + b)[..|a + b| - 1] == a + b[..|b| - 1];
      CountSuccessAppend(a, b[..|b| - 1]);
    } else {
      assert a + b == a;
    }
  }

  /** A list has at least as many entries as distinct names. */
  lemma {:induction false} NameSetBound(tags: seq<MetaTag>)
    ensures |NameSet(tags)| <= |tags|
  {
    if tags != [] {
      var init := tags[..|tags| - 1];
      NameSetBound(init);
      assert NameSet(tags) == NameSet(init) + {tags[|tags| - 1].name} by {
        forall n | n in NameSet(tags) ensures n in NameSet(init) + {tags[|tags| - 1].name} {
          var i :| 0 <= i < |tags| && tags[i].name == n;
          if i < |tags| - 1 { assert init[i].name == n; }
        }
        forall n | n in NameSet(init) ensures n in NameSet(tags) {
          var i :| 0 <= i < |init| && init[i].name == n;
          assert tags[i].name == n;
        }
      }
    }
  }

  lemma HasNameInNameSet(tags: seq<MetaTag>, name: string)
    ensures HasName(tags, name) <==> name in NameSet(tags)
  {
  }
}
