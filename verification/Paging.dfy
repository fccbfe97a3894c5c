/**
 SELECT ... ORDER BY ... LIMIT n over the rows a query is left with.
 */
module Paging {

  /** A sort key: the ordering column, then the primary key. */
  type Rank = (int, int)

  predicate RankLess(a: Rank, b: Rank) {
    a.0 < b.0 || (a.0 == b.0 && a.1 < b.1)
  }

  predicate Unique<K(==)>(page: seq<K>) {
    forall i, j :: 0 <= i < j < |page| ==> page[i] != page[j]
  }

  function Min(a: nat, b: nat): nat { if a < b then a else b }

  /** `page` is the first `limit` of `rows` in rank order. */
  ghost predicate IsPage<K(!new)>(page: seq<K>, rows: set<K>, rank: K -> Rank, limit: nat) {
    && Unique(page)
    && |page| == Min(limit, |rows|)
    && (forall k :: k in page ==> k in rows)
    && (forall i, j :: 0 <= i < j < |page| ==> !RankLess(rank(page[j]), rank(page[i])))
    && (forall k, i :: k in rows && k !in page && 0 <= i < |page| ==> !RankLess(rank(k), rank(page[i])))
  }

  predicate Least<K(!new, ==)>(rows: set<K>, rank: K -> Rank, k: K) {
    k in rows && forall other :: other in rows ==> !RankLess(rank(other), rank(k))
  }

  lemma {:induction false} LeastExists<K(!new)>(rows: set<K>, rank: K -> Rank)
    requires rows != {}
    ensures exists k :: Least(rows, rank, k)
    decreases |rows|
  {
    var x :| x in rows;
    var rest := rows - {x};
    assert forall other :: other in rows ==> other == x || other in rest;
    if rest == {} {
      assert Least(rows, rank, x);
    } else {
      LeastExists(rest, rank);
      var y :| Least(rest, rank, y);
      assert Least(rows, rank, if RankLess(rank(x), rank(y)) then x else y);
    }
  }

  method SelectPage<K(!new, ==)>(rows: set<K>, rank: K -> Rank, limit: nat) returns (page: seq<K>)
    ensures IsPage(page, rows, rank, limit)
  {
    page := [];
    var rest := rows;
    while |page| < limit && rest != {}
      invariant Unique(page) && |page| <= limit
      invariant rest <= rows && |page| + |rest| == |rows|
      invariant forall k :: k in rows <==> k in page || k in rest
      invariant forall k :: k in page ==> k !in rest
      invariant forall i, j :: 0 <= i < j < |page| ==> !RankLess(rank(page[j]), rank(page[i]))
      invariant forall k, i :: k in rest && 0 <= i < |page| ==> !RankLess(rank(k), rank(page[i]))
      decreases |rest|
    {
      LeastExists(rest, rank);
      var k :| k in rest && Least(rest, rank, k);
      page := page + [k];
      rest := rest - {k};
    }
  }

  function Elements<K>(page: seq<K>): set<K> { set k | k in page }

  lemma {:induction false} UniqueSize<K>(page: seq<K>)
    requires Unique(page)
    ensures |Elements(page)| == |page|
  {
    if page != [] {
      var n := |page| - 1;
      UniqueSize(page[..n]);
      assert page == page[..n] + [page[n]];
      assert Elements(page) == Elements(page[..n]) + {page[n]};
      assert page[n] !in Elements(page[..n]);
    } else {
      assert Elements(page) == {};
    }
  }

  /** A page with room to spare holds every row. */
  lemma ShortPageIsAll<K(!new)>(page: seq<K>, rows: set<K>, rank: K -> Rank, limit: nat)
    requires IsPage(page, rows, rank, limit)
    ensures Unique(page) && Elements(page) <= rows && |rows - Elements(page)| == |rows| - Min(limit, |rows|)
  {
    UniqueSize(page);
    assert rows == Elements(page) + (rows - Elements(page));
  }
}
