/** What the store promises about its queries, proved from `Storage`. */
module StorageProperties {
  import opened SeoTypes
  import opened Storage

  /** The insertion-order list has strictly increasing ids. */
  lemma AnalysisListIdsIncreasing(st: MemStorage)
    requires st.Valid()
    ensures IdsIncreasing(st.AnalysisList())
  {
  }

  /** A prefix of a newest-first list is newest first, and nothing after it is more recent than
      anything in it. */
  lemma TakeOfNewestFirst(sorted: seq<Analysis>, limit: int)
    requires NewestFirst(sorted)
    ensures var r := Take(sorted, limit);
            && NewestFirst(r)
            && (forall y :: y in sorted && y !in r ==> forall x :: x in r ==> x.createdAt >= y.createdAt)
  {
    var r := Take(sorted, limit);
    assert r == sorted[..|r|];
    TopIsNewest(sorted, |r|);
    forall y | y in sorted && y !in r
      ensures forall x :: x in r ==> x.createdAt >= y.createdAt
    {
      var k :| 0 <= k < |sorted| && sorted[k] == y;
      forall x | x in r ensures x.createdAt >= y.createdAt {
        var i :| 0 <= i < |r| && r[i] == x;
        assert sorted[i] == x;
      }
    }
  }

  /** On any list with increasing ids, the sorted prefix holds entries of the list only, newest
      first, and nothing of the list left out is more recent than an entry kept. */
  lemma TakeNewestRules(s: seq<Analysis>, limit: int)
    requires IdsIncreasing(s)
    ensures var r := Take(SortNewestFirst(s), limit);
            && (forall x :: x in r ==> x in s)
            && NewestFirst(r)
            && (forall y :: y in s && y !in r ==> forall x :: x in r ==> x.createdAt >= y.createdAt)
  {
    var sorted := SortNewestFirst(s);
    var r := Take(sorted, limit);
    SortNewestFirstOrders(s);
    TakeOfNewestFirst(sorted, limit);
    forall x | x in r ensures x in s {
      var i :| 0 <= i < |r| && r[i] == x;
      assert sorted[i] == x;
      SortedMember(s, x);
    }
    forall y | y in s ensures y in sorted {
      assert y in multiset(sorted);
    }
  }

  /** `listRecentAnalyses(limit)` returns min(limit, size) records; a negative limit drops that
      many from the end. */
  lemma ListRecentAnalysesCount(st: MemStorage, limit: int)
    requires st.Valid()
    ensures var r := st.ListRecentAnalyses(limit);
            var n := |st.analyses|;
            && (limit >= 0 ==> |r| == if limit < n then limit else n)
            && (limit < 0 ==> |r| == if n + limit > 0 then n + limit else 0)
  {
    KeysCount(st.analyses, st.analysisCurrentId - 1);
  }

  /** Sorting adds no entries. */
  lemma SortedMember(s: seq<Analysis>, x: Analysis)
    requires x in SortNewestFirst(s)
    ensures x in s
  {
    assert x in multiset(SortNewestFirst(s));
  }

  /** An entry of the listing over a map keyed 1..n by its records' own ids is stored under
      its id. */
  lemma ValuesMember(m: map<int, Analysis>, n: nat, x: Analysis)
    requires forall id :: id in m <==> 1 <= id <= n
    requires forall id :: id in m ==> m[id].id == id
    requires x in SortNewestFirst(Values(m, n))
    ensures x.id in m && m[x.id] == x
  {
    var s := Values(m, n);
    SortedMember(s, x);
    var k :| 0 <= k < |s| && s[k] == x;
    assert 1 <= k + 1 <= n;
    assert k + 1 in m;
    assert m[k + 1] == x;
  }

  /** The listing over a map keyed 1..n by its records' own ids holds stored records only. */
  lemma TakeNewestOfMapMembers(m: map<int, Analysis>, n: nat, limit: int)
    requires forall id :: id in m <==> 1 <= id <= n
    requires forall id :: id in m ==> m[id].id == id
    ensures forall x :: x in Take(SortNewestFirst(Values(m, n)), limit) ==> x.id in m && m[x.id] == x
  {
    var sorted := SortNewestFirst(Values(m, n));
    var r := Take(sorted, limit);
    forall x | x in r ensures x.id in m && m[x.id] == x {
      var i :| 0 <= i < |r| && r[i] == x;
      assert sorted[i] == x;
      ValuesMember(m, n, x);
    }
  }

  /** A newest-first list of records stored under their own ids holds each id once. */
  lemma StoredNewestFirstDistinct(r: seq<Analysis>, m: map<int, Analysis>)
    requires NewestFirst(r)
    requires forall x :: x in r ==> x.id in m && m[x.id] == x
    ensures forall i, j :: 0 <= i < j < |r| ==> r[i].id != r[j].id
  {
    forall i, j | 0 <= i < j < |r| ensures r[i].id != r[j].id {
      assert r[i] in r && r[j] in r;
      if r[i].createdAt != r[j].createdAt {
        assert m[r[i].id] != m[r[j].id];
      }
    }
  }

  /** ... and no stored record left out of it is more recent than one in it. */
  lemma TakeNewestOfMapTop(m: map<int, Analysis>, n: nat, limit: int)
    requires forall id :: id in m <==> 1 <= id <= n
    requires forall id :: id in m ==> m[id].id == id
    ensures var r := Take(SortNewestFirst(Values(m, n)), limit);
            && NewestFirst(r)
            && forall id :: id in m && m[id] !in r ==> forall x :: x in r ==> x.createdAt >= m[id].createdAt
  {
    var s := Values(m, n);
    var r := Take(SortNewestFirst(s), limit);
    TakeNewestRules(s, limit);
    forall id | id in m && m[id] !in r ensures forall x :: x in r ==> x.createdAt >= m[id].createdAt {
      var y := m[id];
      assert y in s by {
        assert s[id - 1] == y;
      }
    }
  }

  /** `listRecentAnalyses(limit)` returns stored records, each once, newest first with ties in
      insertion order, and no record left out is more recent than one returned. */
  lemma ListRecentAnalysesRules(st: MemStorage, limit: int)
    requires st.Valid()
    ensures var r := st.ListRecentAnalyses(limit);
            && (forall x :: x in r ==> x.id in st.analyses && st.analyses[x.id] == x)
            && (forall i, j :: 0 <= i < j < |r| ==> r[i].id != r[j].id)
            && NewestFirst(r)
            && (forall id :: id in st.analyses && st.analyses[id] !in r ==>
                  forall x :: x in r ==> x.createdAt >= st.analyses[id].createdAt)
  {
    var m, n := st.analyses, st.analysisCurrentId - 1;
    var r := st.ListRecentAnalyses(limit);
    assert r == Take(SortNewestFirst(Values(m, n)), limit);
    TakeNewestOfMapMembers(m, n, limit);
    TakeNewestOfMapTop(m, n, limit);
    StoredNewestFirstDistinct(r, m);
  }

  /** The five most recent analyses are shown by the `/api/recent` route. */
  lemma RecentFive(st: MemStorage)
    requires st.Valid()
    ensures |st.ListRecentAnalyses(5)| == if |st.analyses| < 5 then |st.analyses| else 5
  {
    ListRecentAnalysesCount(st, 5);
  }

  /** Once some analysis of a url is stored, appending more records never changes which one
      the lookup finds: later records for the same url are never returned. */
  lemma {:induction false} FirstWithUrlStable(s: seq<Analysis>, t: seq<Analysis>, url: string)
    requires FirstWithUrl(s, url) < |s|
    ensures FirstWithUrl(s + t, url) == FirstWithUrl(s, url)
  {
    if s[0].url != url {
      assert (s + t)[1..] == s[1..] + t;
      FirstWithUrlStable(s[1..], t, url);
    }
  }

  /** The same for usernames. */
  lemma {:induction false} FirstUserNamedStable(s: seq<User>, t: seq<User>, username: string)
    requires FirstUserNamed(s, username) < |s|
    ensures FirstUserNamed(s + t, username) == FirstUserNamed(s, username)
  {
    if s[0].username != username {
      assert (s + t)[1..] == s[1..] + t;
      FirstUserNamedStable(s[1..], t, username);
    }
  }
}
