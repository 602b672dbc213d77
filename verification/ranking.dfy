/**
 The ordering step of the service's search (services/cyborgdb.ts:123): `Array.prototype.sort`
 with the comparator `b.score - a.score`. JavaScript's sort is stable, so results of equal
 score keep their input order; this is a stable insertion sort by non-increasing score.
 */
module Ranking {
  import opened Types

  predicate SortedByScore(rs: seq<SearchResult>) {
    forall i, j :: 0 <= i < j < |rs| ==> rs[i].score >= rs[j].score
  }

  /** The matched threats of a result list, in order. */
  function ThreatsOf(rs: seq<SearchResult>): (ts: seq<Threat>)
    ensures |ts| == |rs|
  {
    if rs == [] then [] else [rs[0].threat] + ThreatsOf(rs[1..])
  }

  /** A result no lower than everything in a sorted list may head it. */
  lemma SortedCons(y: SearchResult, t: seq<SearchResult>)
    requires SortedByScore(t)
    requires forall z :: z in t ==> z.score <= y.score
    ensures SortedByScore([y] + t)
  {
    forall i, j | 0 <= i < j < |[y] + t|
      ensures ([y] + t)[i].score >= ([y] + t)[j].score
    {
      if i == 0 {
        assert ([y] + t)[j] == t[j - 1];
        assert t[j - 1] in t;
      } else {
        assert ([y] + t)[i] == t[i - 1] && ([y] + t)[j] == t[j - 1];
      }
    }
  }

  /** The head of a sorted list has the highest score in it. */
  lemma HeadIsHighest(rs: seq<SearchResult>)
    requires SortedByScore(rs)
    ensures forall z :: z in rs ==> z.score <= rs[0].score
  {
    forall z | z in rs ensures z.score <= rs[0].score {
      var k :| 0 <= k < |rs| && rs[k] == z;
    }
  }

  lemma ThreatsOfCons(x: SearchResult, rs: seq<SearchResult>)
    ensures ThreatsOf([x] + rs) == [x.threat] + ThreatsOf(rs)
  {
    assert ([x] + rs)[1..] == rs;
  }

  /** Places `x` before the first element it does not score below: into a sorted list, before every equal score. */
  function Insert(x: SearchResult, rs: seq<SearchResult>): seq<SearchResult>
    decreases |rs|
  {
    if rs == [] || x.score >= rs[0].score then [x] + rs else [rs[0]] + Insert(x, rs[1..])
  }

  /** Insertion adds exactly the one result. */
  lemma {:induction false} InsertAddsOne(x: SearchResult, rs: seq<SearchResult>)
    ensures multiset(Insert(x, rs)) == multiset(rs) + multiset{x}
    decreases |rs|
  {
    if rs != [] && x.score < rs[0].score {
      InsertAddsOne(x, rs[1..]);
      assert rs == [rs[0]] + rs[1..];
    }
  }

  /** Insertion adds exactly the one result's threat. */
  lemma {:induction false} InsertAddsThreat(x: SearchResult, rs: seq<SearchResult>)
    ensures multiset(ThreatsOf(Insert(x, rs))) == multiset(ThreatsOf(rs)) + multiset{x.threat}
    decreases |rs|
  {
    if rs == [] || x.score >= rs[0].score {
      ThreatsOfCons(x, rs);
    } else {
      InsertAddsThreat(x, rs[1..]);
      ThreatsOfCons(rs[0], Insert(x, rs[1..]));
      ThreatsOfCons(rs[0], rs[1..]);
      assert rs == [rs[0]] + rs[1..];
    }
  }

  /** Insertion into a sorted list keeps it sorted. */
  lemma {:induction false} InsertKeepsSorted(x: SearchResult, rs: seq<SearchResult>)
    requires SortedByScore(rs)
    ensures SortedByScore(Insert(x, rs))
    decreases |rs|
  {
    HeadIsHighest(rs);
    if rs == [] || x.score >= rs[0].score {
      SortedCons(x, rs);
    } else {
      var tail := Insert(x, rs[1..]);
      assert rs == [rs[0]] + rs[1..];
      InsertKeepsSorted(x, rs[1..]);
      InsertAddsOne(x, rs[1..]);
      InsertStaysBelow(x, rs[1..], tail, rs[0].score);
      SortedCons(rs[0], tail);
    }
  }

  /** Inserting a result below a bound into a list below that bound keeps the list below it. */
  lemma InsertStaysBelow(x: SearchResult, rs: seq<SearchResult>, r: seq<SearchResult>, bound: real)
    requires multiset(r) == multiset(rs) + multiset{x}
    requires x.score <= bound
    requires forall z :: z in rs ==> z.score <= bound
    ensures forall z :: z in r ==> z.score <= bound
  {
    forall z | z in r ensures z.score <= bound {
      assert z in multiset(r);
      if z != x {
        assert z in multiset(rs);
      }
    }
  }

  /** The input re-ordered by non-increasing score. */
  function SortByScore(rs: seq<SearchResult>): seq<SearchResult>
    decreases |rs|
  {
    if rs == [] then [] else Insert(rs[0], SortByScore(rs[1..]))
  }

  /** The sort's output is ordered by non-increasing score. */
  lemma {:induction false} SortIsSorted(rs: seq<SearchResult>)
    ensures SortedByScore(SortByScore(rs))
    decreases |rs|
  {
    if rs != [] {
      SortIsSorted(rs[1..]);
      InsertKeepsSorted(rs[0], SortByScore(rs[1..]));
    }
  }

  /** The sort's output is a permutation of its input. */
  lemma {:induction false} SortIsPermutation(rs: seq<SearchResult>)
    ensures multiset(SortByScore(rs)) == multiset(rs)
    decreases |rs|
  {
    if rs != [] {
      SortIsPermutation(rs[1..]);
      InsertAddsOne(rs[0], SortByScore(rs[1..]));
      assert rs == [rs[0]] + rs[1..];
    }
  }

  /** Sorting neither adds nor drops a matched threat. */
  lemma {:induction false} SortKeepsThreats(rs: seq<SearchResult>)
    ensures multiset(ThreatsOf(SortByScore(rs))) == multiset(ThreatsOf(rs))
    decreases |rs|
  {
    if rs != [] {
      SortKeepsThreats(rs[1..]);
      InsertAddsThreat(rs[0], SortByScore(rs[1..]));
      ThreatsOfCons(rs[0], rs[1..]);
      assert rs == [rs[0]] + rs[1..];
    }
  }
}
