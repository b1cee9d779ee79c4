/** A stable sort by an integer key, as Python's `sorted` gives it. */
module Sorting {
  function Insert<T>(s: seq<T>, x: T, key: T -> int): seq<T> {
    if s == [] || key(s[|s| - 1]) <= key(x) then s + [x] else Insert(s[..|s| - 1], x, key) + [s[|s| - 1]]
  }

  function Sort<T>(s: seq<T>, key: T -> int): seq<T> {
    if s == [] then [] else Insert(Sort(s[..|s| - 1], key), s[|s| - 1], key)
  }

  ghost predicate Ordered<T>(s: seq<T>, key: T -> int) {
    forall i, j :: 0 <= i < j < |s| ==> key(s[i]) <= key(s[j])
  }

  lemma {:induction false} InsertMembers<T>(s: seq<T>, x: T, key: T -> int)
    ensures multiset(Insert(s, x, key)) == multiset(s) + multiset{x}
    ensures forall i :: 0 <= i < |Insert(s, x, key)| ==> Insert(s, x, key)[i] == x || Insert(s, x, key)[i] in s
  {
    if s != [] && key(s[|s| - 1]) > key(x) {
      InsertMembers(s[..|s| - 1], x, key);
      assert s == s[..|s| - 1] + [s[|s| - 1]];
    }
  }

  /** In an ordered sequence the last key is the greatest. */
  ghost predicate Below<T>(s: seq<T>, bound: int, key: T -> int) {
    forall i :: 0 <= i < |s| ==> key(s[i]) <= bound
  }

  lemma {:induction false} InsertBelow<T>(s: seq<T>, x: T, bound: int, key: T -> int)
    requires Below(s, bound, key) && key(x) <= bound
    ensures Below(Insert(s, x, key), bound, key)
  {
    var r := Insert(s, x, key);
    InsertMembers(s, x, key);
    forall i | 0 <= i < |r| ensures key(r[i]) <= bound {
      assert r[i] == x || r[i] in s;
    }
  }

  lemma {:induction false} InsertOrders<T>(s: seq<T>, x: T, key: T -> int)
    requires Ordered(s, key)
    ensures Ordered(Insert(s, x, key), key)
  {
    if s == [] || key(s[|s| - 1]) <= key(x) {
    } else {
      var front, last := s[..|s| - 1], s[|s| - 1];
      assert Below(front, key(last), key);
      InsertOrders(front, x, key);
      InsertBelow(front, x, key(last), key);
    }
  }

  lemma {:induction false} SameSize<T>(s: seq<T>, t: seq<T>)
    requires multiset(s) == multiset(t)
    ensures |s| == |t|
  {
    assert |multiset(s)| == |s| && |multiset(t)| == |t|;
  }

  lemma {:induction false} SortOrders<T>(s: seq<T>, key: T -> int)
    ensures Ordered(Sort(s, key), key) && multiset(Sort(s, key)) == multiset(s) && |Sort(s, key)| == |s|
  {
    if s != [] {
      var front, last := s[..|s| - 1], s[|s| - 1];
      SortOrders(front, key);
      InsertOrders(Sort(front, key), last, key);
      InsertMembers(Sort(front, key), last, key);
      assert s == front + [last];
      SameSize(Sort(s, key), s);
    }
  }

  lemma {:induction false} SortMembers<T>(s: seq<T>, key: T -> int, x: T)
    ensures x in Sort(s, key) <==> x in s
  {
    SortOrders(s, key);
    assert x in Sort(s, key) <==> x in multiset(Sort(s, key));
    assert x in s <==> x in multiset(s);
  }

  // ---- the 95th percentile -------------------------------------------------------------------

  const IDENTITY: int -> int := x => x

  function Rank95(n: nat): nat {
    (19 * n + 19) / 20
  }

  /** percentile95 (tools/ingress/management_probe.py): the nearest rank. */
  function Percentile95(values: seq<int>): int
    requires values != []
  {
    SortOrders(values, IDENTITY);
    Sort(values, IDENTITY)[Rank95(|values|) - 1]
  }

  function AtMost(s: seq<int>, v: int): nat {
    if s == [] then 0 else AtMost(s[..|s| - 1], v) + if s[|s| - 1] <= v then 1 else 0
  }

  lemma {:induction false} AtMostOfMultiset(s: seq<int>, t: seq<int>, v: int)
    requires multiset(s) == multiset(t)
    ensures AtMost(s, v) == AtMost(t, v)
    decreases |s|
  {
    if s == [] {
      assert |multiset(t)| == 0;
    } else {
      var last := s[|s| - 1];
      assert s == s[..|s| - 1] + [last];
      assert last in multiset(t);
      var i :| 0 <= i < |t| && t[i] == last;
      var rest := t[..i] + t[i + 1..];
      assert t == t[..i] + [last] + t[i + 1..];
      assert multiset(rest) == multiset(t) - multiset{last};
      AtMostOfMultiset(s[..|s| - 1], rest, v);
      AtMostSplit(t[..i], t[i + 1..], v);
      AtMostSplit(t[..i] + [last], t[i + 1..], v);
      AtMostSplit(t[..i], [last], v);
      assert [last][..0] == [];
    }
  }

  lemma {:induction false} AtMostSplit(a: seq<int>, b: seq<int>, v: int)
    ensures AtMost(a + b, v) == AtMost(a, v) + AtMost(b, v)
  {
    if b == [] {
      assert a + b == a;
    } else {
      AtMostSplit(a, b[..|b| - 1], v);
      assert (a + b)[..|a + b| - 1] == a + b[..|b| - 1];
    }
  }

  /** In an ordered sequence, at least k + 1 elements are at most the one at k. */
  lemma {:induction false} AtMostOrdered(s: seq<int>, k: nat, v: int)
    requires Ordered(s, IDENTITY) && k < |s|
    ensures s[k] <= v ==> AtMost(s, v) >= k + 1
    ensures s[k] > v ==> AtMost(s, v) <= k
    decreases |s|
  {
    assert forall i, j :: 0 <= i < j < |s| ==> IDENTITY(s[i]) <= IDENTITY(s[j]);
    var front := s[..|s| - 1];
    if k < |front| {
      assert s[k] <= s[|s| - 1];
      AtMostOrdered(front, k, v);
    } else if front != [] {
      assert s[k - 1] <= s[k];
      AtMostOrdered(front, k - 1, v);
      AtMostLength(front, v);
    } else {
      assert AtMost(front, v) == 0;
    }
  }

  lemma {:induction false} AtMostLength(s: seq<int>, v: int)
    ensures AtMost(s, v) <= |s|
  {
    if s != [] { AtMostLength(s[..|s| - 1], v); }
  }

  lemma {:induction false} RankCounts(values: seq<int>, sorted: seq<int>, k: nat, v: int)
    requires Ordered(sorted, IDENTITY) && multiset(sorted) == multiset(values) && k < |sorted|
    ensures sorted[k] <= v ==> AtMost(values, v) >= k + 1
    ensures sorted[k] > v ==> AtMost(values, v) <= k
  {
    AtMostOfMultiset(values, sorted, v);
    AtMostOrdered(sorted, k, v);
  }

  lemma {:induction false} RankFits(n: nat)
    requires n > 0
    ensures 1 <= Rank95(n) <= n && 95 * n <= 100 * Rank95(n) && 100 * (Rank95(n) - 1) < 95 * n
  {
  }

  /** It is one of the values, at least 95% of them do not exceed it, and no smaller bound has that. */
  lemma {:induction false} PercentileMeans(values: seq<int>, v: int)
    requires values != []
    ensures Percentile95(values) in values
    ensures 100 * AtMost(values, Percentile95(values)) >= 95 * |values|
    ensures v < Percentile95(values) ==> 100 * AtMost(values, v) < 95 * |values|
  {
    var sorted, p, rank := Sort(values, IDENTITY), Percentile95(values), Rank95(|values|);
    SortOrders(values, IDENTITY);
    assert p == sorted[rank - 1];
    SortMembers(values, IDENTITY, p);
    RankFits(|values|);
    RankCounts(values, sorted, rank - 1, p);
    RankCounts(values, sorted, rank - 1, v);
  }
}
