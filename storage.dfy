/** The in-memory store of Backend/storage.ts: users and analyses kept in maps keyed by
    auto-incremented ids, with lookup by id, first match by field, and the newest-first listing.

    `created_at` is a timestamp string in the source, compared through `new Date(...).getTime()`;
    here it is that time, an integer. A JavaScript `Map` iterates in insertion order; the store only
    ever inserts under the next counter value and never deletes, so insertion order is ascending id
    order, which is how `UserList` and `AnalysisList` read the maps. */
module Storage {
  import opened SeoTypes

  datatype User = User(id: int, username: string, password: string)
  datatype InsertUser = InsertUser(username: string, password: string)

  datatype Analysis = Analysis(id: int, url: string, results: AnalysisResult, score: int, createdAt: int)
  datatype InsertAnalysis = InsertAnalysis(url: string, results: AnalysisResult, score: int, createdAt: int)

  /** The values stored under the keys 1..n, in key order. */
  function Values<T>(m: map<int, T>, n: nat): (r: seq<T>)
    requires forall k :: 1 <= k <= n ==> k in m
    ensures |r| == n
    ensures forall i :: 0 <= i < n ==> r[i] == m[i + 1]
  {
    if n == 0 then [] else Values(m, n - 1) + [m[n]]
  }

  /** The keys of a map holding exactly 1..n number n. */
  lemma {:induction false} KeysCount<T>(m: map<int, T>, n: nat)
    requires forall k :: k in m <==> 1 <= k <= n
    ensures |m| == n
  {
    if n > 0 {
      var m' := map k | k in m && k != n :: m[k];
      KeysCount(m', n - 1);
      assert m.Keys == m'.Keys + {n};
    } else {
      assert m.Keys == {};
    }
  }

  /** `findIndex` on usernames: the first position holding `username`, or `|s|`. */
  function FirstUserNamed(s: seq<User>, username: string): (i: nat)
    ensures i <= |s|
    ensures forall j :: 0 <= j < i ==> s[j].username != username
    ensures i < |s| ==> s[i].username == username
  {
    if s == [] then 0
    else if s[0].username == username then 0
    else 1 + FirstUserNamed(s[1..], username)
  }

  /** `findIndex` on urls: the first position holding `url`, or `|s|`. */
  function FirstWithUrl(s: seq<Analysis>, url: string): (i: nat)
    ensures i <= |s|
    ensures forall j :: 0 <= j < i ==> s[j].url != url
    ensures i < |s| ==> s[i].url == url
  {
    if s == [] then 0
    else if s[0].url == url then 0
    else 1 + FirstWithUrl(s[1..], url)
  }

  // ---------------------------------------------------------------- newest first

  /** Ordered by `created_at` descending, ties by ascending id (insertion order). */
  predicate NewestFirst(s: seq<Analysis>)
  {
    forall i, j :: 0 <= i < j < |s| ==>
      s[i].createdAt > s[j].createdAt || (s[i].createdAt == s[j].createdAt && s[i].id < s[j].id)
  }

  predicate IdsIncreasing(s: seq<Analysis>)
  {
    forall i, j :: 0 <= i < j < |s| ==> s[i].id < s[j].id
  }

  /** Places `x` after every entry at least as recent: the step of a stable sort by the
      comparator `b.created_at - a.created_at`. */
  function InsertNewest(sorted: seq<Analysis>, x: Analysis): (r: seq<Analysis>)
    ensures |r| == |sorted| + 1
    ensures multiset(r) == multiset(sorted) + multiset{x}
  {
    if sorted == [] then [x]
    else if sorted[0].createdAt < x.createdAt then [x] + sorted
    else
      assert sorted == [sorted[0]] + sorted[1..];
      [sorted[0]] + InsertNewest(sorted[1..], x)
  }

  /** The stable sort of `Array.prototype.sort` with the comparator `b.created_at - a.created_at`. */
  function SortNewestFirst(s: seq<Analysis>): (r: seq<Analysis>)
    ensures |r| == |s|
    ensures multiset(r) == multiset(s)
  {
    if s == [] then []
    else
      assert s == s[..|s| - 1] + [s[|s| - 1]];
      InsertNewest(SortNewestFirst(s[..|s| - 1]), s[|s| - 1])
  }

  /** `slice(0, limit)`: a negative limit counts from the end. */
  function Take<T>(s: seq<T>, limit: int): (r: seq<T>)
    ensures limit >= 0 ==> |r| == if limit < |s| then limit else |s|
    ensures limit < 0 ==> |r| == if |s| + limit > 0 then |s| + limit else 0
    ensures r <= s
  {
    var end := if limit < 0 then (if |s| + limit > 0 then |s| + limit else 0)
               else if limit < |s| then limit else |s|;
    s[..end]
  }

  /** The head of a newest-first list is at least as recent as, and on a tie older in id than,
      every later entry and every `x` with a larger id that is not more recent. */
  lemma HeadPrecedes(sorted: seq<Analysis>, x: Analysis, y: Analysis)
    requires NewestFirst(sorted) && sorted != []
    requires sorted[0].createdAt >= x.createdAt && sorted[0].id < x.id
    requires y in multiset(sorted[1..]) + multiset{x}
    ensures sorted[0].createdAt > y.createdAt || (sorted[0].createdAt == y.createdAt && sorted[0].id < y.id)
  {
    if y != x {
      assert y in sorted[1..];
      var k :| 0 <= k < |sorted[1..]| && sorted[1..][k] == y;
      assert sorted[k + 1] == y;
    }
  }

  /** A head that precedes every entry of a newest-first list keeps it newest first. */
  lemma ConsNewestFirst(h: Analysis, rest: seq<Analysis>)
    requires NewestFirst(rest)
    requires forall j :: 0 <= j < |rest| ==>
               h.createdAt > rest[j].createdAt || (h.createdAt == rest[j].createdAt && h.id < rest[j].id)
    ensures NewestFirst([h] + rest)
  {
    var r := [h] + rest;
    forall i, j | 0 <= i < j < |r|
      ensures r[i].createdAt > r[j].createdAt || (r[i].createdAt == r[j].createdAt && r[i].id < r[j].id)
    {
      assert r[j] == rest[j - 1];
      if i > 0 {
        assert r[i] == rest[i - 1];
      }
    }
  }

  lemma {:induction false} InsertNewestKeepsOrder(sorted: seq<Analysis>, x: Analysis)
    requires NewestFirst(sorted)
    requires forall y :: y in sorted ==> y.id < x.id
    ensures NewestFirst(InsertNewest(sorted, x))
  {
    if sorted == [] {
    } else if sorted[0].createdAt < x.createdAt {
      forall j | 0 <= j < |sorted| ensures x.createdAt > sorted[j].createdAt {
        if j > 0 {
          assert sorted[0].createdAt >= sorted[j].createdAt;
        }
      }
      ConsNewestFirst(x, sorted);
    } else {
      var tail := sorted[1..];
      assert forall y :: y in tail ==> y in sorted;
      InsertNewestKeepsOrder(tail, x);
      var rest := InsertNewest(tail, x);
      forall j | 0 <= j < |rest|
        ensures sorted[0].createdAt > rest[j].createdAt ||
                (sorted[0].createdAt == rest[j].createdAt && sorted[0].id < rest[j].id)
      {
        assert rest[j] in multiset(rest);
        HeadPrecedes(sorted, x, rest[j]);
      }
      ConsNewestFirst(sorted[0], rest);
    }
  }

  /** With ids increasing in input order, the sort is newest first with ties in input order. */
  lemma {:induction false} SortNewestFirstOrders(s: seq<Analysis>)
    requires IdsIncreasing(s)
    ensures NewestFirst(SortNewestFirst(s))
  {
    if s != [] {
      var init := s[..|s| - 1];
      var x := s[|s| - 1];
      SortNewestFirstOrders(init);
      var sorted := SortNewestFirst(init);
      forall y | y in sorted ensures y.id < x.id {
        assert y in multiset(init);
        var k :| 0 <= k < |init| && init[k] == y;
      }
      InsertNewestKeepsOrder(sorted, x);
    }
  }

  /** In a newest-first list every entry before position `end` is at least as recent as every
      entry from `end` on. */
  lemma TopIsNewest(r: seq<Analysis>, end: nat)
    requires NewestFirst(r) && end <= |r|
    ensures forall i, k :: 0 <= i < end <= k < |r| ==> r[i].createdAt >= r[k].createdAt
  {
  }

  // ---------------------------------------------------------------- the store

  class MemStorage {
    var users: map<int, User>
    var analyses: map<int, Analysis>
    var userCurrentId: int
    var analysisCurrentId: int

    /** Keys are exactly 1..counter-1 and every record carries its own key as id. */
    ghost predicate Valid()
      reads this
    {
      && userCurrentId >= 1 && analysisCurrentId >= 1
      && (forall id :: id in users <==> 1 <= id < userCurrentId)
      && (forall id :: id in analyses <==> 1 <= id < analysisCurrentId)
      && (forall id :: id in users ==> users[id].id == id)
      && (forall id :: id in analyses ==> analyses[id].id == id)
    }

    constructor()
      ensures Valid()
      ensures users == map[] && analyses == map[]
      ensures userCurrentId == 1 && analysisCurrentId == 1
    {
      users := map[];
      analyses := map[];
      userCurrentId := 1;
      analysisCurrentId := 1;
    }

    /** `Array.from(this.users.values())`: the users in insertion order. */
    function UserList(): (r: seq<User>)
      reads this
      requires Valid()
      ensures |r| == userCurrentId - 1
      ensures forall i :: 0 <= i < |r| ==> r[i] == users[i + 1] && r[i].id == i + 1
    {
      Values(users, userCurrentId - 1)
    }

    /** `Array.from(this.analyses.values())`: the analyses in insertion order. */
    function AnalysisList(): (r: seq<Analysis>)
      reads this
      requires Valid()
      ensures |r| == analysisCurrentId - 1
      ensures forall i :: 0 <= i < |r| ==> r[i] == analyses[i + 1] && r[i].id == i + 1
    {
      Values(analyses, analysisCurrentId - 1)
    }

    function GetUser(id: int): (r: Option<User>)
      reads this
      ensures r.None? <==> id !in users
      ensures r.Some? ==> id in users && r.value == users[id]
    {
      if id in users then Some(users[id]) else None
    }

    function GetAnalysis(id: int): (r: Option<Analysis>)
      reads this
      ensures r.None? <==> id !in analyses
      ensures r.Some? ==> id in analyses && r.value == analyses[id]
    {
      if id in analyses then Some(analyses[id]) else None
    }

    /** The earliest-inserted user with that username. */
    function GetUserByUsername(username: string): (r: Option<User>)
      reads this
      requires Valid()
      ensures r.None? <==> forall id :: id in users ==> users[id].username != username
      ensures r.Some? ==> r.value.id in users && users[r.value.id] == r.value && r.value.username == username
      ensures r.Some? ==> forall id :: id in users && id < r.value.id ==> users[id].username != username
    {
      var s := UserList();
      var i := FirstUserNamed(s, username);
      assert forall id :: id in users ==> users[id] == s[id - 1];
      if i < |s| then Some(s[i]) else None
    }

    /** The earliest-inserted analysis of that url. */
    function GetAnalysisByUrl(url: string): (r: Option<Analysis>)
      reads this
      requires Valid()
      ensures r.None? <==> forall id :: id in analyses ==> analyses[id].url != url
      ensures r.Some? ==> r.value.id in analyses && analyses[r.value.id] == r.value && r.value.url == url
      ensures r.Some? ==> forall id :: id in analyses && id < r.value.id ==> analyses[id].url != url
    {
      var s := AnalysisList();
      var i := FirstWithUrl(s, url);
      assert forall id :: id in analyses ==> analyses[id] == s[id - 1];
      if i < |s| then Some(s[i]) else None
    }

    /** The `limit` most recent analyses, newest first. */
    function ListRecentAnalyses(limit: int): seq<Analysis>
      reads this
      requires Valid()
    {
      Take(SortNewestFirst(AnalysisList()), limit)
    }

    method CreateUser(insertUser: InsertUser) returns (user: User)
      requires Valid()
      modifies this
      ensures Valid()
      ensures user == User(old(userCurrentId), insertUser.username, insertUser.password)
      ensures userCurrentId == old(userCurrentId) + 1
      ensures users == old(users)[user.id := user]
      ensures forall id :: id in old(users) ==> id < user.id
      ensures UserList() == old(UserList()) + [user]
      ensures analyses == old(analyses) && analysisCurrentId == old(analysisCurrentId)
    {
      var id := userCurrentId;
      userCurrentId := userCurrentId + 1;
      user := User(id, insertUser.username, insertUser.password);
      users := users[id := user];
    }

    method CreateAnalysis(insertAnalysis: InsertAnalysis) returns (analysis: Analysis)
      requires Valid()
      modifies this
      ensures Valid()
      ensures analysis == Analysis(old(analysisCurrentId), insertAnalysis.url, insertAnalysis.results,
                                   insertAnalysis.score, insertAnalysis.createdAt)
      ensures analysisCurrentId == old(analysisCurrentId) + 1
      ensures analyses == old(analyses)[analysis.id := analysis]
      ensures forall id :: id in old(analyses) ==> id < analysis.id
      ensures AnalysisList() == old(AnalysisList()) + [analysis]
      ensures users == old(users) && userCurrentId == old(userCurrentId)
    {
      var id := analysisCurrentId;
      analysisCurrentId := analysisCurrentId + 1;
      analysis := Analysis(id, insertAnalysis.url, insertAnalysis.results, insertAnalysis.score,
                           insertAnalysis.createdAt);
      analyses := analyses[id := analysis];
    }
  }
}
