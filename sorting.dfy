/**
 * A stable sort by an integer rank, largest rank first.
 *
 * This is the order `Array.prototype.sort((a, b) => b.count - a.count)` produces
 * (the ECMAScript sort is stable), and the order used for the MongoDB `$sort`
 * stages, whose tie order the database leaves open.
 */
module Sorting {

  ghost predicate SortedDesc<T>(s: seq<T>, rank: T -> int) {
    forall i, j :: 0 <= i < j < |s| ==> rank(s[i]) >= rank(s[j])
  }

  /** The elements of `s` whose rank is `v`, in their order in `s`. */
  function OfRank<T>(s: seq<T>, rank: T -> int, v: int): (r: seq<T>)
    ensures |r| <= |s|
  {
    if s == [] then []
    else (if rank(s[0]) == v then [s[0]] else []) + OfRank(s[1..], rank, v)
  }

  /** Puts `x` in front of the first element that does not outrank it. */
  function Insert<T>(x: T, ys: seq<T>, rank: T -> int): (r: seq<T>)
    ensures |r| == |ys| + 1
    ensures multiset(r) == multiset(ys) + multiset{x}
  {
    if ys == [] || rank(x) >= rank(ys[0]) then [x] + ys
    else
      assert ys == [ys[0]] + ys[1..];
      [ys[0]] + Insert(x, ys[1..], rank)
  }

  lemma {:induction false} InsertSorted<T>(x: T, ys: seq<T>, rank: T -> int)
    requires SortedDesc(ys, rank)
    ensures SortedDesc(Insert(x, ys, rank), rank)
  {
    if ys == [] || rank(x) >= rank(ys[0]) {
    } else {
      var rest := Insert(x, ys[1..], rank);
      InsertSorted(x, ys[1..], rank);
      forall k | 0 <= k < |rest|
        ensures rank(rest[k]) <= rank(ys[0])
      {
        assert rest[k] in multiset(rest);
        if rest[k] != x {
          assert rest[k] in multiset(ys[1..]);
          var j :| 0 <= j < |ys[1..]| && ys[1..][j] == rest[k];
          assert ys[j + 1] == rest[k];
        }
      }
      assert Insert(x, ys, rank) == [ys[0]] + rest;
    }
  }

  function SortDesc<T>(s: seq<T>, rank: T -> int): (r: seq<T>)
    ensures |r| == |s|
    ensures multiset(r) == multiset(s)
    ensures SortedDesc(r, rank)
  {
    if s == [] then []
    else
      assert s == [s[0]] + s[1..];
      InsertSorted(s[0], SortDesc(s[1..], rank), rank);
      Insert(s[0], SortDesc(s[1..], rank), rank)
  }

  lemma OfRankCons<T>(x: T, s: seq<T>, rank: T -> int, v: int)
    ensures OfRank([x] + s, rank, v) == (if rank(x) == v then [x] else []) + OfRank(s, rank, v)
  {
    assert ([x] + s)[1..] == s;
  }

  lemma {:induction false} InsertKeepsTies<T>(x: T, ys: seq<T>, rank: T -> int, v: int)
    ensures OfRank(Insert(x, ys, rank), rank, v) == OfRank([x] + ys, rank, v)
  {
    if ys == [] || rank(x) >= rank(ys[0]) {
    } else {
      var rest := ys[1..];
      assert ys == [ys[0]] + rest;
      InsertKeepsTies(x, rest, rank, v);
      OfRankCons(ys[0], Insert(x, rest, rank), rank, v);
      OfRankCons(x, rest, rank, v);
      OfRankCons(x, ys, rank, v);
      OfRankCons(ys[0], rest, rank, v);
    }
  }

  /**
   * Stability: for every rank, the elements of that rank keep their input order.
   */
  lemma {:induction false} SortKeepsTies<T>(s: seq<T>, rank: T -> int, v: int)
    ensures OfRank(SortDesc(s, rank), rank, v) == OfRank(s, rank, v)
  {
    if s != [] {
      assert s == [s[0]] + s[1..];
      SortKeepsTies(s[1..], rank, v);
      InsertKeepsTies(s[0], SortDesc(s[1..], rank), rank, v);
      OfRankCons(s[0], SortDesc(s[1..], rank), rank, v);
      OfRankCons(s[0], s[1..], rank, v);
    }
  }

  /** The first `n` elements, or all of them when there are fewer (MongoDB's `$limit`). */
  function Take<T>(s: seq<T>, n: nat): (r: seq<T>)
    ensures |r| <= n && |r| <= |s|
    ensures r == s[..|r|]
    ensures |s| <= n ==> r == s
  {
    if |s| <= n then s else s[..n]
  }

  /** Everything after the first `n` elements (MongoDB's `skip`). */
  function Drop<T>(s: seq<T>, n: nat): (r: seq<T>)
    ensures |r| == if n <= |s| then |s| - n else 0
    ensures forall i :: 0 <= i < |r| ==> r[i] == s[n + i]
  {
    if n <= |s| then s[n..] else []
  }
}
