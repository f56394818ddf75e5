/**
 * Group-by with a count and a cost per key.
 *
 * Both sides of the dashboard roll rows up this way: the server's `$group`
 * stages (one contribution of count 1 per event) and the client's provider
 * breakdown (one contribution per model row). A contribution is a `Row`; the
 * grouped result has one row per distinct key, in order of first occurrence.
 */
module Rollup {
  import opened Sorting

  datatype Row<K> = Row(key: K, count: int, cost: real)

  ghost predicate NoDuplicates<K>(s: seq<K>) {
    forall i, j :: 0 <= i < j < |s| ==> s[i] != s[j]
  }

  /** The position of the first occurrence of `x` in `s`. */
  function FirstIndex<K(==)>(s: seq<K>, x: K): (i: nat)
    requires x in s
    ensures i < |s| && s[i] == x && x !in s[..i]
  {
    if s[0] == x then 0 else 1 + FirstIndex(s[1..], x)
  }

  /** The distinct elements of `s` in order of first occurrence (`[...new Set(s)]`). */
  function Distinct<K(==)>(s: seq<K>): (d: seq<K>)
    ensures forall i :: 0 <= i < |d| ==> d[i] in s
    ensures forall i :: 0 <= i < |s| ==> s[i] in d
    ensures NoDuplicates(d)
    ensures |d| <= |s|
  {
    if s == [] then []
    else
      var p := s[..|s| - 1];
      var x := s[|s| - 1];
      assert s == p + [x];
      var d := Distinct(p);
      if x in d then d else d + [x]
  }

  lemma {:induction false} FirstIndexSnoc<K>(p: seq<K>, z: K, y: K)
    requires y in p
    ensures FirstIndex(p + [z], y) == FirstIndex(p, y)
  {
    if p[0] != y {
      assert (p + [z])[1..] == p[1..] + [z];
      FirstIndexSnoc(p[1..], z, y);
    }
  }

  /** `Distinct` lists the keys in the order in which they first occur. */
  lemma {:induction false} DistinctInFirstOccurrenceOrder<K>(s: seq<K>)
    ensures forall i, j :: 0 <= i < j < |Distinct(s)| ==>
              FirstIndex(s, Distinct(s)[i]) < FirstIndex(s, Distinct(s)[j])
  {
    if s != [] {
      var p, x := s[..|s| - 1], s[|s| - 1];
      assert s == p + [x];
      DistinctInFirstOccurrenceOrder(p);
      var d := Distinct(p);
      forall y | y in p ensures FirstIndex(s, y) == FirstIndex(p, y) && FirstIndex(s, y) < |p| {
        FirstIndexSnoc(p, x, y);
      }
      if x !in d {
        assert x !in p;
        assert FirstIndex(s, x) == |p| by {
          assert s[..|p|] == p;
        }
      }
    }
  }

  function KeysOf<K>(rs: seq<Row<K>>): (ks: seq<K>)
    ensures |ks| == |rs|
    ensures forall i :: 0 <= i < |rs| ==> ks[i] == rs[i].key
  {
    seq(|rs|, i requires 0 <= i < |rs| => rs[i].key)
  }

  /** The summed count of the contributions with key `k`. */
  function CountFor<K(==)>(rs: seq<Row<K>>, k: K): int {
    if rs == [] then 0
    else
      var last := rs[|rs| - 1];
      CountFor(rs[..|rs| - 1], k) + (if last.key == k then last.count else 0)
  }

  /** The summed cost of the contributions with key `k`. */
  function CostFor<K(==)>(rs: seq<Row<K>>, k: K): real {
    if rs == [] then 0.0
    else
      var last := rs[|rs| - 1];
      CostFor(rs[..|rs| - 1], k) + (if last.key == k then last.cost else 0.0)
  }

  function TotalCount<K>(rs: seq<Row<K>>): int {
    if rs == [] then 0 else TotalCount(rs[..|rs| - 1]) + rs[|rs| - 1].count
  }

  function TotalCost<K>(rs: seq<Row<K>>): real {
    if rs == [] then 0.0 else TotalCost(rs[..|rs| - 1]) + rs[|rs| - 1].cost
  }

  /** One row per distinct key, first occurrence first, with the key's summed count and cost. */
  function Group<K(==)>(rs: seq<Row<K>>): (g: seq<Row<K>>)
    ensures KeysOf(g) == Distinct(KeysOf(rs))
    ensures forall i :: 0 <= i < |g| ==> g[i].count == CountFor(rs, g[i].key) && g[i].cost == CostFor(rs, g[i].key)
  {
    var d := Distinct(KeysOf(rs));
    seq(|d|, i requires 0 <= i < |d| => Row(d[i], CountFor(rs, d[i]), CostFor(rs, d[i])))
  }

  lemma {:induction false} AbsentKeyIsZero<K>(rs: seq<Row<K>>, k: K)
    requires k !in KeysOf(rs)
    ensures CountFor(rs, k) == 0 && CostFor(rs, k) == 0.0
  {
    if rs != [] {
      var p := rs[..|rs| - 1];
      assert KeysOf(p) == KeysOf(rs)[..|rs| - 1];
      AbsentKeyIsZero(p, k);
      assert KeysOf(rs)[|rs| - 1] == rs[|rs| - 1].key;
    }
  }

  lemma SnocPrefix<K>(rs: seq<Row<K>>, r: Row<K>)
    ensures (rs + [r])[..|rs|] == rs
    ensures KeysOf(rs + [r]) == KeysOf(rs) + [r.key]
  {
  }

  /** A contribution whose key is new appends one row. */
  lemma GroupSnocNew<K>(rs: seq<Row<K>>, r: Row<K>)
    requires forall i :: 0 <= i < |Group(rs)| ==> Group(rs)[i].key != r.key
    ensures Group(rs + [r]) == Group(rs) + [r]
  {
    SnocPrefix(rs, r);
    var d := Distinct(KeysOf(rs));
    assert KeysOf(Group(rs)) == d;
    assert r.key !in d;
    AbsentKeyIsZero(rs, r.key);
    var rs' := rs + [r];
    assert Distinct(KeysOf(rs')) == d + [r.key];
    forall k | k in d ensures CountFor(rs', k) == CountFor(rs, k) && CostFor(rs', k) == CostFor(rs, k) {
    }
  }

  /** A contribution whose key is already present adds into that key's row. */
  lemma GroupSnocExisting<K>(rs: seq<Row<K>>, r: Row<K>, i: nat)
    requires i < |Group(rs)| && Group(rs)[i].key == r.key
    ensures Group(rs + [r]) ==
              Group(rs)[i := Row(r.key, Group(rs)[i].count + r.count, Group(rs)[i].cost + r.cost)]
  {
    SnocPrefix(rs, r);
    var d := Distinct(KeysOf(rs));
    assert KeysOf(Group(rs)) == d;
    assert d[i] == r.key;
    var rs' := rs + [r];
    assert Distinct(KeysOf(rs')) == d;
    forall k | k in d && k != r.key ensures CountFor(rs', k) == CountFor(rs, k) && CostFor(rs', k) == CostFor(rs, k) {
    }
  }

  lemma {:induction false} TotalsOfUpdate<K>(s: seq<Row<K>>, i: nat, dc: int, dm: real)
    requires i < |s|
    ensures TotalCount(s[i := s[i].(count := s[i].count + dc, cost := s[i].cost + dm)]) == TotalCount(s) + dc
    ensures TotalCost(s[i := s[i].(count := s[i].count + dc, cost := s[i].cost + dm)]) == TotalCost(s) + dm
  {
    var s' := s[i := s[i].(count := s[i].count + dc, cost := s[i].cost + dm)];
    if i < |s| - 1 {
      assert s'[..|s| - 1] == s[..|s| - 1][i := s[i].(count := s[i].count + dc, cost := s[i].cost + dm)];
      TotalsOfUpdate(s[..|s| - 1], i, dc, dm);
    } else {
      assert s'[..|s| - 1] == s[..|s| - 1];
    }
  }

  /** Grouping neither loses nor invents count or cost. */
  lemma {:induction false} GroupConservesTotals<K>(rs: seq<Row<K>>)
    ensures TotalCount(Group(rs)) == TotalCount(rs)
    ensures TotalCost(Group(rs)) == TotalCost(rs)
  {
    if rs != [] {
      var p, r := rs[..|rs| - 1], rs[|rs| - 1];
      assert rs == p + [r];
      GroupConservesTotals(p);
      TotalsOfSnoc(p, r);
      var g := Group(p);
      if exists i :: 0 <= i < |g| && g[i].key == r.key {
        var i :| 0 <= i < |g| && g[i].key == r.key;
        ConserveExisting(p, r, i);
        assert TotalCount(Group(p + [r])) == TotalCount(g) + r.count;
        assert TotalCost(Group(p + [r])) == TotalCost(g) + r.cost;
      } else {
        ConserveNew(p, r);
      }
    }
  }

  lemma ConserveNew<K>(p: seq<Row<K>>, r: Row<K>)
    requires forall i :: 0 <= i < |Group(p)| ==> Group(p)[i].key != r.key
    ensures TotalCount(Group(p + [r])) == TotalCount(Group(p)) + r.count
    ensures TotalCost(Group(p + [r])) == TotalCost(Group(p)) + r.cost
  {
    GroupSnocNew(p, r);
    TotalsOfSnoc(Group(p), r);
  }

  lemma ConserveExisting<K>(p: seq<Row<K>>, r: Row<K>, i: nat)
    requires i < |Group(p)| && Group(p)[i].key == r.key
    ensures TotalCount(Group(p + [r])) == TotalCount(Group(p)) + r.count
    ensures TotalCost(Group(p + [r])) == TotalCost(Group(p)) + r.cost
  {
    var g := Group(p);
    GroupSnocExisting(p, r, i);
    TotalsOfUpdate(g, i, r.count, r.cost);
    assert g[i := Row(r.key, g[i].count + r.count, g[i].cost + r.cost)]
        == g[i := g[i].(count := g[i].count + r.count, cost := g[i].cost + r.cost)];
  }

  lemma TotalsOfSnoc<K>(g: seq<Row<K>>, r: Row<K>)
    ensures TotalCount(g + [r]) == TotalCount(g) + r.count
    ensures TotalCost(g + [r]) == TotalCost(g) + r.cost
  {
    assert (g + [r])[..|g|] == g;
  }

  function CountRank<K>(r: Row<K>): int { r.count }

  /** Rows by count, largest first, ties in input order (`$sort: {count: -1}`). */
  function ByCountDesc<K>(rs: seq<Row<K>>): (r: seq<Row<K>>)
    ensures |r| == |rs| && multiset(r) == multiset(rs)
    ensures forall i, j :: 0 <= i < j < |r| ==> r[i].count >= r[j].count
  {
    var s := SortDesc(rs, CountRank);
    assert forall i, j :: 0 <= i < j < |s| ==> CountRank(s[i]) >= CountRank(s[j]);
    s
  }

  ghost predicate DistinctKeys<K>(rs: seq<Row<K>>) {
    forall i, j :: 0 <= i < j < |rs| ==> rs[i].key != rs[j].key
  }

  lemma GroupHasDistinctKeys<K>(rs: seq<Row<K>>)
    ensures DistinctKeys(Group(rs))
  {
    var g := Group(rs);
    assert forall i :: 0 <= i < |g| ==> KeysOf(g)[i] == g[i].key;
  }

  lemma {:induction false} InsertKeepsDistinctKeys<K>(x: Row<K>, ys: seq<Row<K>>, rank: Row<K> -> int)
    requires DistinctKeys(ys)
    requires forall i :: 0 <= i < |ys| ==> ys[i].key != x.key
    ensures DistinctKeys(Insert(x, ys, rank))
  {
    if ys == [] || rank(x) >= rank(ys[0]) {
      assert Insert(x, ys, rank) == [x] + ys;
    } else {
      var rest := Insert(x, ys[1..], rank);
      InsertKeepsDistinctKeys(x, ys[1..], rank);
      forall k | 0 <= k < |rest| ensures rest[k].key != ys[0].key {
        assert rest[k] in multiset(rest);
        if rest[k] != x {
          assert rest[k] in multiset(ys[1..]);
          var j :| 0 <= j < |ys[1..]| && ys[1..][j] == rest[k];
          assert ys[j + 1] == rest[k];
        }
      }
      assert Insert(x, ys, rank) == [ys[0]] + rest;
    }
  }

  lemma {:induction false} SortKeepsDistinctKeys<K>(rs: seq<Row<K>>, rank: Row<K> -> int)
    requires DistinctKeys(rs)
    ensures DistinctKeys(SortDesc(rs, rank))
  {
    if rs != [] {
      var tail := rs[1..];
      SortKeepsDistinctKeys(tail, rank);
      var sorted := SortDesc(tail, rank);
      forall i | 0 <= i < |sorted| ensures sorted[i].key != rs[0].key {
        assert sorted[i] in multiset(tail);
        var j :| 0 <= j < |tail| && tail[j] == sorted[i];
        assert rs[j + 1] == sorted[i];
      }
      InsertKeepsDistinctKeys(rs[0], sorted, rank);
    }
  }

  lemma {:induction false} TotalsOfCons<K>(x: Row<K>, ys: seq<Row<K>>)
    ensures TotalCount([x] + ys) == x.count + TotalCount(ys)
    ensures TotalCost([x] + ys) == x.cost + TotalCost(ys)
  {
    if ys != [] {
      var p := ys[..|ys| - 1];
      assert ([x] + ys)[..|ys|] == [x] + p;
      TotalsOfCons(x, p);
    }
  }

  lemma {:induction false} InsertKeepsTotals<K>(x: Row<K>, ys: seq<Row<K>>, rank: Row<K> -> int)
    ensures TotalCount(Insert(x, ys, rank)) == x.count + TotalCount(ys)
    ensures TotalCost(Insert(x, ys, rank)) == x.cost + TotalCost(ys)
  {
    if ys == [] || rank(x) >= rank(ys[0]) {
      TotalsOfCons(x, ys);
    } else {
      InsertKeepsTotals(x, ys[1..], rank);
      TotalsOfCons(ys[0], Insert(x, ys[1..], rank));
      TotalsOfCons(ys[0], ys[1..]);
      assert ys == [ys[0]] + ys[1..];
    }
  }

  /** Sorting rows changes neither the summed count nor the summed cost. */
  lemma {:induction false} SortKeepsTotals<K>(rs: seq<Row<K>>, rank: Row<K> -> int)
    ensures TotalCount(SortDesc(rs, rank)) == TotalCount(rs)
    ensures TotalCost(SortDesc(rs, rank)) == TotalCost(rs)
  {
    if rs != [] {
      SortKeepsTotals(rs[1..], rank);
      InsertKeepsTotals(rs[0], SortDesc(rs[1..], rank), rank);
      TotalsOfCons(rs[0], rs[1..]);
      assert rs == [rs[0]] + rs[1..];
    }
  }

  /** With non-negative counts, a prefix never sums to more than the whole. */
  lemma {:induction false} PrefixCountAtMostTotal<K>(rs: seq<Row<K>>, n: nat)
    requires n <= |rs|
    requires forall i :: 0 <= i < |rs| ==> rs[i].count >= 0
    ensures TotalCount(rs[..n]) <= TotalCount(rs)
  {
    if n < |rs| {
      var p := rs[..|rs| - 1];
      assert rs[..n] == p[..n];
      PrefixCountAtMostTotal(p, n);
    } else {
      assert rs[..n] == rs;
    }
  }
}
