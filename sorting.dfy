/** Python's `list.sort(key=…, reverse=True)` and `sorted(…, key=…, reverse=True)`: a stable
    sort into non-increasing key order. Every sort key in the pipeline is a number or a tuple of
    up to three numbers, compared lexicographically. */
module Sorting {

  /** A sort key: one to three components, compared left to right. Keys with fewer components
      leave the others at zero. */
  datatype Rank = Rank(primary: real, secondary: int, tertiary: int)

  function CountRank(count: int): Rank {
    Rank(count as real, 0, 0)
  }

  /** Tuple comparison `a <= b`. */
  predicate RankLe(a: Rank, b: Rank) {
    a.primary < b.primary
    || (a.primary == b.primary && (a.secondary < b.secondary
                                   || (a.secondary == b.secondary && a.tertiary <= b.tertiary)))
  }

  lemma {:induction false} RankLeTotal(a: Rank, b: Rank)
    ensures RankLe(a, b) || RankLe(b, a)
  {
  }

  lemma {:induction false} RankLeTransitive(a: Rank, b: Rank, c: Rank)
    requires RankLe(a, b) && RankLe(b, c)
    ensures RankLe(a, c)
  {
  }

  /** Every element's key is at least the key of every later element. */
  ghost predicate SortedDesc<T>(s: seq<T>, key: T -> Rank) {
    forall i, j :: 0 <= i < j < |s| ==> RankLe(key(s[j]), key(s[i]))
  }

  /** Places `x` in front of the first element whose key is not greater than its own, so that
      `x` stays ahead of the elements it ties with. */
  function Insert<T>(x: T, s: seq<T>, key: T -> Rank): (r: seq<T>)
    ensures multiset(r) == multiset(s) + multiset{x}
    ensures |r| == |s| + 1
  {
    if s == [] || RankLe(key(s[0]), key(x)) then [x] + s
    else
      assert s == [s[0]] + s[1..];
      [s[0]] + Insert(x, s[1..], key)
  }

  /** Stable sort, largest key first: insertion of each element, from the last to the first,
      into the already sorted rest. */
  function SortDesc<T>(s: seq<T>, key: T -> Rank): (r: seq<T>)
    ensures |r| == |s|
  {
    if s == [] then [] else Insert(s[0], SortDesc(s[1..], key), key)
  }

  lemma {:induction false} InsertSorted<T>(x: T, s: seq<T>, key: T -> Rank)
    requires SortedDesc(s, key)
    ensures SortedDesc(Insert(x, s, key), key)
    ensures forall y :: y in Insert(x, s, key) ==> y == x || y in s
  {
    if s == [] || RankLe(key(s[0]), key(x)) {
      var r := [x] + s;
      forall i, j | 0 <= i < j < |r| ensures RankLe(key(r[j]), key(r[i])) {
        if i == 0 {
          RankLeTransitive(key(r[j]), key(s[0]), key(x));
        }
      }
    } else {
      InsertSorted(x, s[1..], key);
      var t := Insert(x, s[1..], key);
      var r := [s[0]] + t;
      RankLeTotal(key(s[0]), key(x));
      forall i, j | 0 <= i < j < |r| ensures RankLe(key(r[j]), key(r[i])) {
        if i == 0 {
          assert r[j] in t;
          assert r[j] == x || r[j] in s[1..];
          if r[j] != x {
            var k :| 1 <= k < |s| && s[k] == r[j];
          }
        }
      }
    }
  }

  lemma {:induction false} SortDescSorted<T>(s: seq<T>, key: T -> Rank)
    ensures SortedDesc(SortDesc(s, key), key)
  {
    if s != [] {
      SortDescSorted(s[1..], key);
      InsertSorted(s[0], SortDesc(s[1..], key), key);
    }
  }

  lemma {:induction false} SortDescPermutes<T>(s: seq<T>, key: T -> Rank)
    ensures multiset(SortDesc(s, key)) == multiset(s)
  {
    if s != [] {
      SortDescPermutes(s[1..], key);
      assert s == [s[0]] + s[1..];
    }
  }

  /** What a caller of the sort relies on: the result is in non-increasing key order and holds
      the same elements, each as often as before. */
  lemma {:induction false} SortDescSpec<T>(s: seq<T>, key: T -> Rank)
    ensures SortedDesc(SortDesc(s, key), key)
    ensures multiset(SortDesc(s, key)) == multiset(s)
  {
    SortDescSorted(s, key);
    SortDescPermutes(s, key);
  }

  /** The first `n` elements of a sorted list are sorted, come from the list, and none of the
      elements left out has a higher key than one kept. */
  lemma {:induction false} TakeOfSorted<T>(sorted: seq<T>, n: nat, key: T -> Rank)
    requires SortedDesc(sorted, key)
    ensures var top := Take(sorted, n);
      && SortedDesc(top, key)
      && multiset(top) <= multiset(sorted)
      && forall x, y :: x in top && y in multiset(sorted) - multiset(top) ==> RankLe(key(y), key(x))
  {
    var top := Take(sorted, n);
    var rest := sorted[|top|..];
    assert sorted == top + rest;
    assert multiset(sorted) == multiset(top) + multiset(rest);
    forall x, y | x in top && y in multiset(sorted) - multiset(top)
      ensures RankLe(key(y), key(x))
    {
      assert y in multiset(rest);
      var i :| 0 <= i < |top| && top[i] == x;
      var j :| 0 <= j < |rest| && rest[j] == y;
      assert sorted[i] == x && sorted[|top| + j] == y;
    }
  }

  /** `xs[:n]`. */
  function Take<T>(xs: seq<T>, n: nat): (r: seq<T>)
    ensures |r| == if |xs| < n then |xs| else n
    ensures r == xs[..|r|]
  {
    if |xs| <= n then xs else xs[..n]
  }
}
