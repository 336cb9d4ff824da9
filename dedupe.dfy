/** De-duplication that keeps the first item for each key, in input order: the
    `const seen = new Set(); items.filter(x => { if (seen.has(k(x))) return false;
    seen.add(k(x)); return true; })` idiom of the search endpoints. */
module Dedupe {
  import Ranking

  /** Keep the items whose key is not yet in `seen`, adding each kept key to it. */
  function KeepFirst<T, K(==)>(xs: seq<T>, key: T -> K, seen: set<K>): seq<T>
    decreases |xs|
  {
    if xs == [] then []
    else if key(xs[0]) in seen then KeepFirst(xs[1..], key, seen)
    else [xs[0]] + KeepFirst(xs[1..], key, seen + {key(xs[0])})
  }

  function ByKey<T, K(==)>(xs: seq<T>, key: T -> K): seq<T> {
    KeepFirst(xs, key, {})
  }

  function KeySet<T, K>(xs: seq<T>, key: T -> K): set<K> {
    set i | 0 <= i < |xs| :: key(xs[i])
  }

  predicate DistinctKeys<T, K(==)>(xs: seq<T>, key: T -> K) {
    forall i, j :: 0 <= i < j < |xs| ==> key(xs[i]) != key(xs[j])
  }

  /** a can be obtained from b by deleting elements. */
  predicate Subseq<T(==)>(a: seq<T>, b: seq<T>)
    decreases |b|
  {
    if a == [] then true
    else if b == [] then false
    else (a[0] == b[0] && Subseq(a[1..], b[1..])) || Subseq(a, b[1..])
  }

  /** No earlier item of xs has the key of xs[i]. */
  predicate IsFirst<T, K(==)>(xs: seq<T>, key: T -> K, i: int)
    requires 0 <= i < |xs|
  {
    forall j :: 0 <= j < i ==> key(xs[j]) != key(xs[i])
  }

  lemma {:induction false} KeepFirstKeys<T, K>(xs: seq<T>, key: T -> K, seen: set<K>)
    ensures var r := KeepFirst(xs, key, seen);
      DistinctKeys(r, key) && KeySet(r, key) * seen == {} && KeySet(r, key) + seen == KeySet(xs, key) + seen
    decreases |xs|
  {
    if xs != [] {
      var k := key(xs[0]);
      var seen' := if k in seen then seen else seen + {k};
      var t := KeepFirst(xs[1..], key, seen');
      KeepFirstKeys(xs[1..], key, seen');
      KeySetCons(xs, key);
      if k !in seen {
        var r := [xs[0]] + t;
        assert r[1..] == t;
        KeySetCons(r, key);
        forall y | y in t ensures key(y) != k {
          KeySetHas(t, key, y);
        }
        ConsDistinct(xs[0], t, key);
      }
    }
  }

  /** The keys of a non-empty list: its head's key and the keys of its tail. */
  lemma KeySetCons<T, K>(xs: seq<T>, key: T -> K)
    requires xs != []
    ensures KeySet(xs, key) == {key(xs[0])} + KeySet(xs[1..], key)
  {
    forall x | x in KeySet(xs, key) ensures x in {key(xs[0])} + KeySet(xs[1..], key) {
      var i :| 0 <= i < |xs| && key(xs[i]) == x;
      if i > 0 { assert key(xs[1..][i - 1]) == x; }
    }
    forall x | x in KeySet(xs[1..], key) ensures x in KeySet(xs, key) {
      var i :| 0 <= i < |xs[1..]| && key(xs[1..][i]) == x;
      assert key(xs[i + 1]) == x;
    }
  }

  lemma KeySetHas<T, K>(xs: seq<T>, key: T -> K, y: T)
    requires y in xs
    ensures key(y) in KeySet(xs, key)
  {
    var i :| 0 <= i < |xs| && xs[i] == y;
  }

  lemma {:induction false} KeepFirstSubseq<T, K>(xs: seq<T>, key: T -> K, seen: set<K>)
    ensures Subseq(KeepFirst(xs, key, seen), xs)
    decreases |xs|
  {
    if xs != [] {
      var k := key(xs[0]);
      if k in seen {
        KeepFirstSubseq(xs[1..], key, seen);
      } else {
        var t := KeepFirst(xs[1..], key, seen + {k});
        KeepFirstSubseq(xs[1..], key, seen + {k});
        assert ([xs[0]] + t)[1..] == t;
      }
    }
  }

  lemma {:induction false} KeepFirstKeepsFirsts<T, K>(xs: seq<T>, key: T -> K, seen: set<K>, i: nat)
    requires i < |xs| && key(xs[i]) !in seen && IsFirst(xs, key, i)
    ensures xs[i] in KeepFirst(xs, key, seen)
    decreases |xs|
  {
    if i > 0 {
      var k := key(xs[0]);
      var seen' := if k in seen then seen else seen + {k};
      assert key(xs[0]) != key(xs[i]);
      assert IsFirst(xs[1..], key, i - 1) by {
        forall j | 0 <= j < i - 1 ensures key(xs[1..][j]) != key(xs[1..][i - 1]) {
          assert key(xs[j + 1]) != key(xs[i]);
        }
      }
      KeepFirstKeepsFirsts(xs[1..], key, seen', i - 1);
    }
  }

  /** The de-duplicated list keeps input order, has one item per key, covers every key
      of the input, and the item kept for a key is its first occurrence. */
  lemma ByKeyProps<T, K>(xs: seq<T>, key: T -> K)
    ensures DistinctKeys(ByKey(xs, key), key)
    ensures KeySet(ByKey(xs, key), key) == KeySet(xs, key)
    ensures Subseq(ByKey(xs, key), xs)
    ensures forall i :: 0 <= i < |xs| && IsFirst(xs, key, i) ==> xs[i] in ByKey(xs, key)
  {
    KeepFirstKeys(xs, key, {});
    KeepFirstSubseq(xs, key, {});
    forall i | 0 <= i < |xs| && IsFirst(xs, key, i) ensures xs[i] in ByKey(xs, key) {
      KeepFirstKeepsFirsts(xs, key, {}, i);
    }
  }

  lemma {:induction false} KeepFirstLength<T, K>(xs: seq<T>, key: T -> K, seen: set<K>)
    ensures |KeepFirst(xs, key, seen)| <= |xs|
    decreases |xs|
  {
    if xs != [] {
      KeepFirstLength(xs[1..], key, if key(xs[0]) in seen then seen else seen + {key(xs[0])});
    }
  }

  /** Deleting nothing from the end: a subsequence of b is one of b + [y]. */
  lemma {:induction false} SubseqSnocRight<T>(a: seq<T>, b: seq<T>, y: T)
    requires Subseq(a, b)
    ensures Subseq(a, b + [y])
    decreases |b|
  {
    if a != [] && b != [] {
      assert (b + [y])[1..] == b[1..] + [y];
      if a[0] == b[0] && Subseq(a[1..], b[1..]) {
        SubseqSnocRight(a[1..], b[1..], y);
      } else {
        SubseqSnocRight(a, b[1..], y);
      }
    }
  }

  /** A prefix of a subsequence of b is a subsequence of b. */
  lemma {:induction false} SubseqPrefix<T>(a: seq<T>, b: seq<T>, k: nat)
    requires Subseq(a, b) && k <= |a|
    ensures Subseq(a[..k], b)
    decreases |b|
  {
    if k > 0 {
      if a[0] == b[0] && Subseq(a[1..], b[1..]) {
        SubseqPrefix(a[1..], b[1..], k - 1);
        assert a[..k][1..] == a[1..][..k - 1];
      } else {
        SubseqPrefix(a, b[1..], k);
      }
    }
  }

  /** Keeping the same last element on both sides preserves the subsequence relation. */
  lemma {:induction false} SubseqSnoc<T>(a: seq<T>, b: seq<T>, x: T)
    requires Subseq(a, b)
    ensures Subseq(a + [x], b + [x])
    decreases |b|
  {
    if a == [] {
      if b != [] {
        assert (b + [x])[1..] == b[1..] + [x];
        SubseqSnoc(a, b[1..], x);
      } else {
        assert ([x])[1..] == [];
      }
    } else {
      assert (b + [x])[1..] == b[1..] + [x];
      assert (a + [x])[1..] == a[1..] + [x];
      if a[0] == b[0] && Subseq(a[1..], b[1..]) {
        SubseqSnoc(a[1..], b[1..], x);
      } else {
        SubseqSnoc(a, b[1..], x);
      }
    }
  }

  /** The Set-driven loop of the source computes `ByKey`. */
  method Run<T, K(==)>(xs: seq<T>, key: T -> K) returns (r: seq<T>)
    ensures r == ByKey(xs, key)
  {
    var seen: set<K> := {};
    r := [];
    var i := 0;
    while i < |xs|
      invariant 0 <= i <= |xs|
      invariant ByKey(xs, key) == r + KeepFirst(xs[i..], key, seen)
    {
      assert xs[i..][1..] == xs[i + 1..];
      if key(xs[i]) !in seen {
        r := r + [xs[i]];
        seen := seen + {key(xs[i])};
      }
      i := i + 1;
    }
  }

  /** Every element of a subsequence is an element of the whole. */
  lemma {:induction false} SubseqIn<T>(a: seq<T>, b: seq<T>, x: T)
    requires Subseq(a, b) && x in a
    ensures x in b
    decreases |b|
  {
    if a[0] == b[0] && Subseq(a[1..], b[1..]) {
      if x != a[0] { SubseqIn(a[1..], b[1..], x); }
    } else {
      SubseqIn(a, b[1..], x);
    }
  }

  /** Inserting an item whose key is new keeps the keys distinct. */
  lemma {:induction false} InsertByDistinct<T, K>(x: T, s: seq<T>, le: (T, T) -> bool, key: T -> K)
    requires DistinctKeys(s, key) && forall y :: y in s ==> key(y) != key(x)
    ensures DistinctKeys(Ranking.InsertBy(x, s, le), key)
    decreases |s|
  {
    var r := Ranking.InsertBy(x, s, le);
    if s != [] && !le(x, s[0]) {
      var t := Ranking.InsertBy(x, s[1..], le);
      assert DistinctKeys(s[1..], key);
      InsertByDistinct(x, s[1..], le, key);
      forall y | y in t ensures key(y) != key(s[0]) {
        assert y in multiset(t);
        if y != x {
          assert y in multiset(s[1..]);
          var k :| 0 <= k < |s[1..]| && s[1..][k] == y;
          assert s[k + 1] == y;
        }
      }
      assert r == [s[0]] + t;
      ConsDistinct(s[0], t, key);
    } else if s != [] {
      assert r == [x] + s;
      ConsDistinct(x, s, key);
    }
  }

  lemma ConsDistinct<T, K>(h: T, t: seq<T>, key: T -> K)
    requires DistinctKeys(t, key) && forall y :: y in t ==> key(y) != key(h)
    ensures DistinctKeys([h] + t, key)
  {
    var r := [h] + t;
    forall i, j | 0 <= i < j < |r| ensures key(r[i]) != key(r[j]) {
      if i == 0 { assert r[j] == t[j - 1]; assert r[j] in t; }
      else { assert r[i] == t[i - 1] && r[j] == t[j - 1]; }
    }
  }

  /** Sorting does not bring back a repeated key. */
  lemma {:induction false} SortByDistinct<T, K>(s: seq<T>, le: (T, T) -> bool, key: T -> K)
    requires DistinctKeys(s, key)
    ensures DistinctKeys(Ranking.SortBy(s, le), key)
    decreases |s|
  {
    if s != [] {
      var t := Ranking.SortBy(s[1..], le);
      assert DistinctKeys(s[1..], key);
      SortByDistinct(s[1..], le, key);
      forall y | y in t ensures key(y) != key(s[0]) {
        assert y in multiset(s[1..]);
        var k :| 0 <= k < |s[1..]| && s[1..][k] == y;
        assert s[k + 1] == y;
      }
      InsertByDistinct(s[0], t, le, key);
    }
  }
}
