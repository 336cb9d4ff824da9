/** Frequency tables: Python's `collections.Counter` and the JavaScript idiom
    `counts[k] = (counts[k] || 0) + 1`. Entries are kept in first-seen order. */
module Tally {
  import Ranking

  type Entry<K> = (K, nat)

  /** Occurrences of k in s. */
  function Occ<K(==)>(s: seq<K>, k: K): nat
    decreases |s|
  {
    if s == [] then 0 else Occ(s[..|s| - 1], k) + (if s[|s| - 1] == k then 1 else 0)
  }

  function Keys<K>(c: seq<Entry<K>>): (r: seq<K>)
    ensures |r| == |c|
    ensures forall i :: 0 <= i < |c| ==> r[i] == c[i].0
  {
    seq(|c|, i requires 0 <= i < |c| => c[i].0)
  }

  predicate Distinct<K(==)>(s: seq<K>) {
    forall i, j :: 0 <= i < j < |s| ==> s[i] != s[j]
  }

  /** The distinct elements of s in order of first occurrence. */
  function FirstSeen<K(==)>(s: seq<K>): seq<K>
    decreases |s|
  {
    if s == [] then []
    else
      var d := FirstSeen(s[..|s| - 1]);
      if s[|s| - 1] in d then d else d + [s[|s| - 1]]
  }

  /** One more occurrence of k: its entry is bumped, or (k, 1) is appended when k is new. */
  function Bump<K(==)>(c: seq<Entry<K>>, k: K): seq<Entry<K>>
    decreases |c|
  {
    if c == [] then [(k, 1)]
    else if c[0].0 == k then [(k, c[0].1 + 1)] + c[1..]
    else [c[0]] + Bump(c[1..], k)
  }

  /** The frequency table of s. */
  function Counts<K(==)>(s: seq<K>): seq<Entry<K>>
    decreases |s|
  {
    if s == [] then [] else Bump(Counts(s[..|s| - 1]), s[|s| - 1])
  }

  /** Count recorded for k (0 when absent). */
  function CountOf<K(==)>(c: seq<Entry<K>>, k: K): nat
    decreases |c|
  {
    if c == [] then 0 else if c[0].0 == k then c[0].1 else CountOf(c[1..], k)
  }

  function Total<K>(c: seq<Entry<K>>): nat
    decreases |c|
  {
    if c == [] then 0 else c[0].1 + Total(c[1..])
  }

  lemma {:induction false} BumpKeys<K>(c: seq<Entry<K>>, k: K)
    ensures Keys(Bump(c, k)) == if k in Keys(c) then Keys(c) else Keys(c) + [k]
    decreases |c|
  {
    if c != [] && c[0].0 != k {
      BumpKeys(c[1..], k);
      assert Keys(c) == [c[0].0] + Keys(c[1..]);
      assert Keys(Bump(c, k)) == [c[0].0] + Keys(Bump(c[1..], k));
    } else if c != [] {
      assert Keys(Bump(c, k)) == Keys(c);
    }
  }

  /** The table's keys are the distinct inputs, in first-seen order. */
  lemma {:induction false} CountsKeys<K>(s: seq<K>)
    ensures Keys(Counts(s)) == FirstSeen(s)
    decreases |s|
  {
    if s != [] {
      CountsKeys(s[..|s| - 1]);
      BumpKeys(Counts(s[..|s| - 1]), s[|s| - 1]);
    }
  }

  lemma {:induction false} FirstSeenProps<K>(s: seq<K>)
    ensures Distinct(FirstSeen(s))
    ensures forall x :: x in FirstSeen(s) <==> x in s
    decreases |s|
  {
    if s != [] {
      var p := s[..|s| - 1];
      FirstSeenProps(p);
      assert s == p + [s[|s| - 1]];
      forall x ensures x in s <==> x in p || x == s[|s| - 1] {
        if x in s {
          var i :| 0 <= i < |s| && s[i] == x;
          if i < |s| - 1 { assert p[i] == x; }
        }
      }
    }
  }

  lemma {:induction false} BumpCountOf<K>(c: seq<Entry<K>>, k: K, x: K)
    ensures CountOf(Bump(c, k), x) == CountOf(c, x) + (if x == k then 1 else 0)
    decreases |c|
  {
    if c != [] && c[0].0 != k {
      BumpCountOf(c[1..], k, x);
    }
  }

  /** Every key's recorded count is its number of occurrences. */
  lemma {:induction false} CountsOcc<K>(s: seq<K>, x: K)
    ensures CountOf(Counts(s), x) == Occ(s, x)
    decreases |s|
  {
    if s != [] {
      CountsOcc(s[..|s| - 1], x);
      BumpCountOf(Counts(s[..|s| - 1]), s[|s| - 1], x);
    }
  }

  lemma {:induction false} BumpTotal<K>(c: seq<Entry<K>>, k: K)
    ensures Total(Bump(c, k)) == Total(c) + 1
    decreases |c|
  {
    if c != [] && c[0].0 != k {
      BumpTotal(c[1..], k);
    }
  }

  /** The counts add up to the number of inputs. */
  lemma {:induction false} CountsTotal<K>(s: seq<K>)
    ensures Total(Counts(s)) == |s|
    decreases |s|
  {
    if s != [] {
      CountsTotal(s[..|s| - 1]);
      BumpTotal(Counts(s[..|s| - 1]), s[|s| - 1]);
    }
  }

  lemma {:induction false} CountOfEntry<K>(c: seq<Entry<K>>, i: nat)
    requires i < |c| && Distinct(Keys(c))
    ensures CountOf(c, c[i].0) == c[i].1
    decreases |c|
  {
    if i > 0 {
      assert Keys(c)[0] != Keys(c)[i];
      assert Distinct(Keys(c[1..])) by {
        forall a, b | 0 <= a < b < |c| - 1 ensures Keys(c[1..])[a] != Keys(c[1..])[b] {
          assert Keys(c)[a + 1] != Keys(c)[b + 1];
        }
      }
      CountOfEntry(c[1..], i - 1);
    }
  }

  /** Each entry of the table holds a distinct input with its number of occurrences. */
  lemma CountsEntry<K>(s: seq<K>, i: nat)
    requires i < |Counts(s)|
    ensures Counts(s)[i].1 == Occ(s, Counts(s)[i].0) && Counts(s)[i].0 in s
  {
    CountsKeys(s);
    FirstSeenProps(s);
    CountOfEntry(Counts(s), i);
    CountsOcc(s, Counts(s)[i].0);
    assert Keys(Counts(s))[i] == Counts(s)[i].0;
  }

  function CountKey<K>(e: Entry<K>): int { e.1 }

  /** `most_common(n)`, or the JavaScript `Object.entries(counts).sort((a, b) => b[1] - a[1])
      .slice(0, n)`: the n most frequent entries, ties in first-seen order. */
  function Top<K>(c: seq<Entry<K>>, n: nat): seq<Entry<K>> {
    Ranking.TopBy(c, CountKey, n)
  }

  /** The top-n list is at most n entries long, in non-increasing count, drawn from the table
      without repetition, and nothing left out has a larger count than an entry kept. */
  lemma TopProps<K>(c: seq<Entry<K>>, n: nat)
    ensures |Top(c, n)| <= n && |Top(c, n)| <= |c|
    ensures Ranking.SortedDesc(Top(c, n), CountKey)
    ensures multiset(Top(c, n)) <= multiset(c)
    ensures n >= |c| ==> multiset(Top(c, n)) == multiset(c)
    ensures forall e :: e in c && e !in Top(c, n) ==>
              forall d :: d in Top(c, n) ==> d.1 >= e.1
  {
    Ranking.TopByProps(c, CountKey, n);
  }

  /** Entries with equal counts keep their first-seen order in the sorted table. */
  lemma TopStable<K>(c: seq<Entry<K>>, k: int)
    ensures Ranking.Band(Ranking.SortDesc(c, CountKey), CountKey, k) == Ranking.Band(c, CountKey, k)
  {
    Ranking.SortDescStable(c, CountKey, k);
  }

  lemma {:induction false} DistinctAtMostOnce<K>(s: seq<K>, x: K)
    requires Distinct(s)
    ensures multiset(s)[x] <= 1
    decreases |s|
  {
    if s != [] {
      var init := s[..|s| - 1];
      assert s == init + [s[|s| - 1]];
      DistinctAtMostOnce(init, x);
      if s[|s| - 1] == x {
        assert x !in init by {
          forall k | 0 <= k < |init| ensures init[k] != x { assert s[k] != s[|s| - 1]; }
        }
      }
    }
  }

  /** A rearrangement of a duplicate-free sequence is duplicate-free. */
  lemma DistinctMultiset<K>(a: seq<K>, b: seq<K>)
    requires Distinct(a) && multiset(a) == multiset(b)
    ensures Distinct(b)
  {
    forall i, j | 0 <= i < j < |b| ensures b[i] != b[j] {
      if b[i] == b[j] {
        assert b == b[..j] + b[j..];
        assert b[i] in b[..j] && b[j] in b[j..];
        assert multiset(b)[b[i]] >= 2 by {
          assert multiset(b) == multiset(b[..j]) + multiset(b[j..]);
        }
        DistinctAtMostOnce(a, b[i]);
      }
    }
  }
}
