/** Grouping with per-key running sums: the JavaScript idiom
    `rows.reduce((acc, r) => { acc[k] ||= {count: 0, ...}; acc[k].count++; ...; return acc }, {})`
    followed by `Object.entries(acc)`. Entries are kept in first-seen key order, and each
    carries a count and up to three sums. */
module Grouping {
  import Tally

  /** A group's running totals: a count and three sums whose meaning the caller fixes. */
  datatype Sums = Sums(count: nat, a: int, b: int, c: int)

  const ZERO := Sums(0, 0, 0, 0)

  function Plus(x: Sums, y: Sums): Sums {
    Sums(x.count + y.count, x.a + y.a, x.b + y.b, x.c + y.c)
  }

  type Group<K> = (K, Sums)

  /** The row's contribution v is added to k's group, or (k, v) is appended when k is new. */
  function Merge<K(==)>(g: seq<Group<K>>, k: K, v: Sums): seq<Group<K>>
    decreases |g|
  {
    if g == [] then [(k, v)]
    else if g[0].0 == k then [(k, Plus(g[0].1, v))] + g[1..]
    else [g[0]] + Merge(g[1..], k, v)
  }

  /** The groups of s, by key, each row contributing val of it. */
  function GroupBy<T, K(==)>(s: seq<T>, key: T -> K, val: T -> Sums): seq<Group<K>>
    decreases |s|
  {
    if s == [] then [] else Merge(GroupBy(s[..|s| - 1], key, val), key(s[|s| - 1]), val(s[|s| - 1]))
  }

  function GroupKeys<K>(g: seq<Group<K>>): (r: seq<K>)
    ensures |r| == |g|
    ensures forall i :: 0 <= i < |g| ==> r[i] == g[i].0
  {
    seq(|g|, i requires 0 <= i < |g| => g[i].0)
  }

  function MapKeys<T, K>(s: seq<T>, key: T -> K): (r: seq<K>)
    ensures |r| == |s|
    ensures forall i :: 0 <= i < |s| ==> r[i] == key(s[i])
  {
    seq(|s|, i requires 0 <= i < |s| => key(s[i]))
  }

  /** The totals of k's group (ZERO when k has none). */
  function At<K(==)>(g: seq<Group<K>>, k: K): Sums
    decreases |g|
  {
    if g == [] then ZERO else if g[0].0 == k then g[0].1 else At(g[1..], k)
  }

  /** The totals over all groups. */
  function Sum<K>(g: seq<Group<K>>): Sums
    decreases |g|
  {
    if g == [] then ZERO else Plus(g[0].1, Sum(g[1..]))
  }

  /** The sum of the contributions of the rows of s whose key is k. */
  function SumWhere<T, K(==)>(s: seq<T>, key: T -> K, val: T -> Sums, k: K): Sums
    decreases |s|
  {
    if s == [] then ZERO
    else Plus(SumWhere(s[..|s| - 1], key, val, k), if key(s[|s| - 1]) == k then val(s[|s| - 1]) else ZERO)
  }

  /** The sum of the contributions of all rows of s. */
  function SumAll<T>(s: seq<T>, val: T -> Sums): Sums
    decreases |s|
  {
    if s == [] then ZERO else Plus(SumAll(s[..|s| - 1], val), val(s[|s| - 1]))
  }

  lemma {:induction false} MergeKeys<K>(g: seq<Group<K>>, k: K, v: Sums)
    ensures GroupKeys(Merge(g, k, v)) == if k in GroupKeys(g) then GroupKeys(g) else GroupKeys(g) + [k]
    decreases |g|
  {
    if g != [] && g[0].0 != k {
      MergeKeys(g[1..], k, v);
      assert GroupKeys(g) == [g[0].0] + GroupKeys(g[1..]);
      assert GroupKeys(Merge(g, k, v)) == [g[0].0] + GroupKeys(Merge(g[1..], k, v));
    } else if g != [] {
      assert GroupKeys(Merge(g, k, v)) == GroupKeys(g);
    }
  }

  /** The groups appear in the order their keys first occur among the rows. */
  lemma {:induction false} GroupByKeys<T, K>(s: seq<T>, key: T -> K, val: T -> Sums)
    ensures GroupKeys(GroupBy(s, key, val)) == Tally.FirstSeen(MapKeys(s, key))
    decreases |s|
  {
    if s != [] {
      var p := s[..|s| - 1];
      GroupByKeys(p, key, val);
      MergeKeys(GroupBy(p, key, val), key(s[|s| - 1]), val(s[|s| - 1]));
      assert MapKeys(s, key)[..|s| - 1] == MapKeys(p, key);
    }
  }

  lemma {:induction false} MergeAt<K>(g: seq<Group<K>>, k: K, v: Sums, j: K)
    ensures At(Merge(g, k, v), j) == if j == k then Plus(At(g, j), v) else At(g, j)
    decreases |g|
  {
    if g != [] && g[0].0 != k {
      MergeAt(g[1..], k, v, j);
    }
  }

  /** A group's totals are the sums of exactly the rows with its key. */
  lemma {:induction false} GroupByAt<T, K>(s: seq<T>, key: T -> K, val: T -> Sums, k: K)
    ensures At(GroupBy(s, key, val), k) == SumWhere(s, key, val, k)
    decreases |s|
  {
    if s != [] {
      var p, x := s[..|s| - 1], s[|s| - 1];
      var g := GroupBy(p, key, val);
      GroupByAt(p, key, val, k);
      MergeAt(g, key(x), val(x), k);
      var y := SumWhere(p, key, val, k);
      if key(x) == k {
        assert At(GroupBy(s, key, val), k) == Plus(y, val(x));
      } else {
        assert At(GroupBy(s, key, val), k) == y;
        PlusZero(y);
      }
    }
  }

  lemma PlusZero(y: Sums)
    ensures Plus(y, ZERO) == y
  {
  }

  lemma {:induction false} MergeSum<K>(g: seq<Group<K>>, k: K, v: Sums)
    ensures Sum(Merge(g, k, v)) == Plus(Sum(g), v)
    decreases |g|
  {
    if g != [] && g[0].0 != k {
      MergeSum(g[1..], k, v);
    }
  }

  /** Nothing is lost or counted twice: the groups' totals add up to the totals of all rows. */
  lemma {:induction false} GroupBySum<T, K>(s: seq<T>, key: T -> K, val: T -> Sums)
    ensures Sum(GroupBy(s, key, val)) == SumAll(s, val)
    decreases |s|
  {
    if s != [] {
      var p := s[..|s| - 1];
      GroupBySum(p, key, val);
      MergeSum(GroupBy(p, key, val), key(s[|s| - 1]), val(s[|s| - 1]));
    }
  }

  /** When every row counts once, the count column sums to the number of rows. */
  lemma {:induction false} SumAllCount<T>(s: seq<T>, val: T -> Sums)
    requires forall x :: x in s ==> val(x).count == 1
    ensures SumAll(s, val).count == |s|
    decreases |s|
  {
    if s != [] {
      SumAllCount(s[..|s| - 1], val);
    }
  }

  /** When every row counts once, a group's count is the number of rows with its key. */
  lemma {:induction false} SumWhereCount<T, K>(s: seq<T>, key: T -> K, val: T -> Sums, k: K)
    requires forall x :: x in s ==> val(x).count == 1
    ensures SumWhere(s, key, val, k).count == Tally.Occ(MapKeys(s, key), k)
    decreases |s|
  {
    if s != [] {
      var p := s[..|s| - 1];
      SumWhereCount(p, key, val, k);
      assert MapKeys(s, key)[..|s| - 1] == MapKeys(p, key);
    }
  }

  /** With distinct keys, a group's totals are found under its own key. */
  lemma {:induction false} AtEntry<K>(g: seq<Group<K>>, i: nat)
    requires i < |g| && Tally.Distinct(GroupKeys(g))
    ensures At(g, g[i].0) == g[i].1
    decreases |g|
  {
    if i > 0 {
      assert GroupKeys(g)[0] != GroupKeys(g)[i];
      forall a, b | 0 <= a < b < |g| - 1 ensures GroupKeys(g[1..])[a] != GroupKeys(g[1..])[b] {
        assert GroupKeys(g)[a + 1] != GroupKeys(g)[b + 1];
      }
      AtEntry(g[1..], i - 1);
    }
  }

  /** The groups of any rows have distinct keys. */
  lemma GroupByDistinct<T, K>(s: seq<T>, key: T -> K, val: T -> Sums)
    ensures Tally.Distinct(GroupKeys(GroupBy(s, key, val)))
  {
    GroupByKeys(s, key, val);
    Tally.FirstSeenProps(MapKeys(s, key));
  }
}
