/** Stable sorting by a numeric key, in descending order, as done by a JavaScript
    `Array.prototype.sort` with comparator `(a, b) => key(b) - key(a)` or by Python's
    `sorted(..., reverse=True)`: larger keys first, equal keys in their original order. */
module Ranking {
  import Str

  predicate SortedDesc<T>(s: seq<T>, f: T -> int) {
    forall i, j :: 0 <= i < j < |s| ==> f(s[i]) >= f(s[j])
  }

  /** The elements of s whose key is c, in their order in s. */
  function Band<T>(s: seq<T>, f: T -> int, c: int): seq<T>
    decreases |s|
  {
    if s == [] then [] else (if f(s[0]) == c then [s[0]] else []) + Band(s[1..], f, c)
  }

  /** Put x before the first element whose key is not greater than its own. */
  function Insert<T>(x: T, s: seq<T>, f: T -> int): (r: seq<T>)
    ensures multiset(r) == multiset(s) + multiset{x}
    ensures |r| == |s| + 1
    decreases |s|
  {
    if s == [] then [x]
    else if f(s[0]) <= f(x) then [x] + s
    else
      assert s == [s[0]] + s[1..];
      [s[0]] + Insert(x, s[1..], f)
  }

  function SortDesc<T>(s: seq<T>, f: T -> int): (r: seq<T>)
    ensures multiset(r) == multiset(s)
    ensures |r| == |s|
    decreases |s|
  {
    if s == [] then []
    else
      assert s == [s[0]] + s[1..];
      Insert(s[0], SortDesc(s[1..], f), f)
  }

  /** Inserting an element with a key at most b into a list whose keys are at most b
      keeps every key at most b. */
  lemma {:induction false} InsertBelow<T>(x: T, s: seq<T>, f: T -> int, b: int)
    requires f(x) <= b && forall i :: 0 <= i < |s| ==> f(s[i]) <= b
    ensures forall i :: 0 <= i < |Insert(x, s, f)| ==> f(Insert(x, s, f)[i]) <= b
    decreases |s|
  {
    var r := Insert(x, s, f);
    if s != [] && f(s[0]) > f(x) {
      var t := Insert(x, s[1..], f);
      InsertBelow(x, s[1..], f, b);
      forall i | 0 <= i < |r| ensures f(r[i]) <= b {
        if i > 0 { assert r[i] == t[i - 1]; }
      }
    } else if s != [] {
      forall i | 0 <= i < |r| ensures f(r[i]) <= b {
        if i > 0 { assert r[i] == s[i - 1]; }
      }
    }
  }

  lemma {:induction false} InsertSorted<T>(x: T, s: seq<T>, f: T -> int)
    requires SortedDesc(s, f)
    ensures SortedDesc(Insert(x, s, f), f)
    decreases |s|
  {
    if s != [] && f(s[0]) > f(x) {
      var t := Insert(x, s[1..], f);
      InsertSorted(x, s[1..], f);
      InsertBelow(x, s[1..], f, f(s[0]));
      var r := [s[0]] + t;
      forall i, j | 0 <= i < j < |r| ensures f(r[i]) >= f(r[j]) {
        if i == 0 { assert r[j] == t[j - 1]; }
        else { assert r[i] == t[i - 1] && r[j] == t[j - 1]; }
      }
    }
  }

  /** The result is in non-increasing key order. */
  lemma {:induction false} SortDescSorted<T>(s: seq<T>, f: T -> int)
    ensures SortedDesc(SortDesc(s, f), f)
    decreases |s|
  {
    if s != [] {
      SortDescSorted(s[1..], f);
      InsertSorted(s[0], SortDesc(s[1..], f), f);
    }
  }

  lemma {:induction false} BandInsert<T>(x: T, s: seq<T>, f: T -> int, c: int)
    ensures Band(Insert(x, s, f), f, c) == (if f(x) == c then [x] else []) + Band(s, f, c)
    decreases |s|
  {
    var mine: seq<T> := if f(x) == c then [x] else [];
    if s == [] {
      assert Insert(x, s, f) == [x];
      assert [x][1..] == [];
      assert Band([x], f, c) == mine + Band([], f, c);
    } else if f(s[0]) <= f(x) {
      assert Insert(x, s, f) == [x] + s;
      assert ([x] + s)[1..] == s;
      assert Band([x] + s, f, c) == mine + Band(s, f, c);
    } else {
      var t := Insert(x, s[1..], f);
      var first: seq<T> := if f(s[0]) == c then [s[0]] else [];
      assert Insert(x, s, f) == [s[0]] + t;
      BandInsert(x, s[1..], f, c);
      assert ([s[0]] + t)[1..] == t;
      assert Band([s[0]] + t, f, c) == first + (mine + Band(s[1..], f, c));
      assert first == [] || mine == [];
      assert Band(s, f, c) == first + Band(s[1..], f, c);
    }
  }

  /** Stability: for every key value the elements with that key keep their relative order. */
  lemma {:induction false} SortDescStable<T>(s: seq<T>, f: T -> int, c: int)
    ensures Band(SortDesc(s, f), f, c) == Band(s, f, c)
    decreases |s|
  {
    if s != [] {
      SortDescStable(s[1..], f, c);
      BandInsert(s[0], SortDesc(s[1..], f), f, c);
    }
  }

  /** `s.slice(0, n)` for n >= 0. */
  function Take<T>(s: seq<T>, n: nat): (r: seq<T>)
    ensures |r| == if n < |s| then n else |s|
    ensures r == s[..|r|]
  {
    if n < |s| then s[..n] else s
  }

  lemma TakeSorted<T>(s: seq<T>, f: T -> int, n: nat)
    requires SortedDesc(s, f)
    ensures SortedDesc(Take(s, n), f)
  {
  }

  /** `s.sort((x, y) => f(y) - f(x)).slice(0, n)`: the n entries with the largest f, ties in
      their original order. */
  function TopBy<T>(s: seq<T>, f: T -> int, n: nat): seq<T> {
    Take(SortDesc(s, f), n)
  }

  /** The top-n list is at most n entries long, in non-increasing f, drawn from s without
      repetition, all of s when n covers it, and nothing left out ranks above an entry kept. */
  lemma TopByProps<T>(s: seq<T>, f: T -> int, n: nat)
    ensures |TopBy(s, f, n)| <= n && |TopBy(s, f, n)| <= |s|
    ensures SortedDesc(TopBy(s, f, n), f)
    ensures multiset(TopBy(s, f, n)) <= multiset(s)
    ensures n >= |s| ==> multiset(TopBy(s, f, n)) == multiset(s)
    ensures forall e :: e in s && e !in TopBy(s, f, n) ==>
              forall d :: d in TopBy(s, f, n) ==> f(d) >= f(e)
  {
    var sorted := SortDesc(s, f);
    SortDescSorted(s, f);
    var t := TopBy(s, f, n);
    assert t == sorted[..|t|];
    assert sorted == t + sorted[|t|..];
    assert multiset(sorted) == multiset(t) + multiset(sorted[|t|..]);
    forall e | e in s && e !in t ensures forall d :: d in t ==> f(d) >= f(e) {
      assert e in multiset(sorted);
      var j :| 0 <= j < |sorted| && sorted[j] == e;
      forall d | d in t ensures f(d) >= f(e) {
        var i :| 0 <= i < |t| && t[i] == d;
        assert sorted[i] == d;
      }
    }
  }

  /** A total preorder: every pair is comparable and the relation is transitive. */
  ghost predicate TotalPreorder<T(!new)>(le: (T, T) -> bool) {
    (forall a, b :: le(a, b) || le(b, a))
    && (forall a, b, c :: le(a, b) && le(b, c) ==> le(a, c))
  }

  predicate SortedBy<T>(s: seq<T>, le: (T, T) -> bool) {
    forall i, j :: 0 <= i < j < |s| ==> le(s[i], s[j])
  }

  function InsertBy<T>(x: T, s: seq<T>, le: (T, T) -> bool): (r: seq<T>)
    ensures multiset(r) == multiset(s) + multiset{x}
    ensures |r| == |s| + 1
    decreases |s|
  {
    if s == [] then [x]
    else if le(x, s[0]) then [x] + s
    else
      assert s == [s[0]] + s[1..];
      [s[0]] + InsertBy(x, s[1..], le)
  }

  /** Stable ascending sort by a comparison `le`. */
  function SortBy<T>(s: seq<T>, le: (T, T) -> bool): (r: seq<T>)
    ensures multiset(r) == multiset(s)
    ensures |r| == |s|
    decreases |s|
  {
    if s == [] then []
    else
      assert s == [s[0]] + s[1..];
      InsertBy(s[0], SortBy(s[1..], le), le)
  }

  /** Inserting an element that m precedes into a list that m precedes keeps m before
      every element. */
  lemma {:induction false} InsertByAbove<T>(x: T, s: seq<T>, le: (T, T) -> bool, m: T)
    requires le(m, x) && forall i :: 0 <= i < |s| ==> le(m, s[i])
    ensures forall i :: 0 <= i < |InsertBy(x, s, le)| ==> le(m, InsertBy(x, s, le)[i])
    decreases |s|
  {
    var r := InsertBy(x, s, le);
    if s != [] && !le(x, s[0]) {
      var t := InsertBy(x, s[1..], le);
      InsertByAbove(x, s[1..], le, m);
      forall i | 0 <= i < |r| ensures le(m, r[i]) {
        if i > 0 { assert r[i] == t[i - 1]; }
      }
    } else if s != [] {
      forall i | 0 <= i < |r| ensures le(m, r[i]) {
        if i > 0 { assert r[i] == s[i - 1]; }
      }
    }
  }

  lemma {:induction false} InsertBySorted<T(!new)>(x: T, s: seq<T>, le: (T, T) -> bool)
    requires TotalPreorder(le) && SortedBy(s, le)
    ensures SortedBy(InsertBy(x, s, le), le)
    decreases |s|
  {
    if s != [] && !le(x, s[0]) {
      var t := InsertBy(x, s[1..], le);
      InsertBySorted(x, s[1..], le);
      assert le(s[0], x);
      InsertByAbove(x, s[1..], le, s[0]);
      var r := [s[0]] + t;
      forall i, j | 0 <= i < j < |r| ensures le(r[i], r[j]) {
        if i == 0 { assert r[j] == t[j - 1]; }
        else { assert r[i] == t[i - 1] && r[j] == t[j - 1]; }
      }
    } else if s != [] {
      var r := [x] + s;
      forall i, j | 0 <= i < j < |r| ensures le(r[i], r[j]) {
        if i == 0 {
          assert r[j] == s[j - 1];
          if j > 1 { assert le(s[0], s[j - 1]); }
        } else { assert r[i] == s[i - 1] && r[j] == s[j - 1]; }
      }
    }
  }

  /** With a total preorder the result is in ascending order. */
  lemma {:induction false} SortBySorted<T(!new)>(s: seq<T>, le: (T, T) -> bool)
    requires TotalPreorder(le)
    ensures SortedBy(SortBy(s, le), le)
    decreases |s|
  {
    if s != [] {
      SortBySorted(s[1..], le);
      InsertBySorted(s[0], SortBy(s[1..], le), le);
    }
  }

  /** The first n of a sorted list: nothing left out comes before something kept. */
  lemma SortByTakeBest<T(!new)>(s: seq<T>, le: (T, T) -> bool, n: nat)
    requires TotalPreorder(le)
    ensures var t := Take(SortBy(s, le), n);
      forall x :: x in s && x !in t ==> forall d :: d in t ==> le(d, x)
  {
    var sorted := SortBy(s, le);
    SortBySorted(s, le);
    var t := Take(sorted, n);
    forall x | x in s && x !in t ensures forall d :: d in t ==> le(d, x) {
      assert x in multiset(sorted);
      var j :| 0 <= j < |sorted| && sorted[j] == x;
      forall d | d in t ensures le(d, x) {
        var i :| 0 <= i < |t| && t[i] == d;
        assert sorted[i] == d;
      }
    }
  }

  function StrLe(a: string, b: string): bool { Str.LessEq(a, b) }

  lemma StrLeTotalPreorder()
    ensures TotalPreorder(StrLe)
  {
    forall a, b ensures StrLe(a, b) || StrLe(b, a) { Str.LessEqTotal(a, b); }
    forall a, b, c | StrLe(a, b) && StrLe(b, c) ensures StrLe(a, c) { Str.LessEqTrans(a, b, c); }
  }

  /** JavaScript's default `sort()` on strings: ascending code-point order. */
  function SortStrings(s: seq<string>): (r: seq<string>)
    ensures multiset(r) == multiset(s)
  {
    SortBy(s, StrLe)
  }

  lemma SortStringsSorted(s: seq<string>)
    ensures SortedBy(SortStrings(s), StrLe)
  {
    StrLeTotalPreorder();
    SortBySorted(s, StrLe);
  }
}
