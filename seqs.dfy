/** Filtering (`rows.filter(p)`, and a SQL `where` on rows in table order), small facts
    about sequences used when a loop appends to its output, and the fixed-size batches a loop `for (i = 0; i < n; i += size) slice(i, i + size)` visits. */
module Seqs {
  import Dedupe

  /** The rows satisfying `p`, in order. */
  function Where<T(!new)>(rows: seq<T>, p: T -> bool): (r: seq<T>)
    ensures |r| <= |rows|
    ensures forall x :: x in r <==> x in rows && p(x)
    decreases |rows|
  {
    if rows == [] then []
    else
      assert rows == [rows[0]] + rows[1..];
      (if p(rows[0]) then [rows[0]] else []) + Where(rows[1..], p)
  }

  /** Filtering keeps the relative order of the rows. */
  lemma {:induction false} WhereOrder<T(!new)>(rows: seq<T>, p: T -> bool)
    ensures Dedupe.Subseq(Where(rows, p), rows)
    decreases |rows|
  {
    if rows != [] {
      WhereOrder(rows[1..], p);
      var rest := Where(rows[1..], p);
      if p(rows[0]) {
        assert Where(rows, p) == [rows[0]] + rest;
        assert Where(rows, p)[1..] == rest;
      } else {
        assert Where(rows, p) == rest;
      }
    }
  }

  lemma AppendAssoc<T>(a: seq<T>, b: seq<T>, c: seq<T>)
    ensures (a + b) + c == a + (b + c)
  {
  }

  function Min(a: int, b: int): int { if a < b then a else b }

  /** The batches `records.slice(i, i + size)` for i = 0, size, 2 * size, ... while
      i < records.length. */
  function Batches<T>(records: seq<T>, size: nat): seq<seq<T>>
    requires size > 0
    decreases |records|
  {
    if records == [] then []
    else if |records| <= size then [records]
    else [records[..size]] + Batches(records[size..], size)
  }

  function Flatten<T>(batches: seq<seq<T>>): seq<T>
    decreases |batches|
  {
    if batches == [] then [] else batches[0] + Flatten(batches[1..])
  }

  /** The batches cover every record once, in order. */
  lemma {:induction false} BatchesCover<T>(records: seq<T>, size: nat)
    requires size > 0
    ensures Flatten(Batches(records, size)) == records
    decreases |records|
  {
    if |records| > size {
      BatchesCover(records[size..], size);
      var b := Batches(records, size);
      assert b[1..] == Batches(records[size..], size);
      assert records == records[..size] + records[size..];
    } else if records != [] {
      assert Batches(records, size)[1..] == [];
    }
  }

  /** Every batch but the last holds exactly size records; the last holds 1 to size. */
  lemma {:induction false} BatchesSized<T>(records: seq<T>, size: nat)
    requires size > 0
    ensures var b := Batches(records, size);
      (forall k :: 0 <= k < |b| - 1 ==> |b[k]| == size)
      && (b != [] ==> 0 < |b[|b| - 1]| <= size)
    decreases |records|
  {
    if |records| > size {
      BatchesSized(records[size..], size);
      var b := Batches(records, size);
      assert b[1..] == Batches(records[size..], size);
      forall k | 0 < k < |b| - 1 ensures |b[k]| == size {
        assert b[k] == b[1..][k - 1];
      }
    }
  }

  lemma AtLeastOnce(x: int, d: int)
    requires d > 0
    ensures x >= 1 ==> x * d >= d
  {
    if x >= 1 {
      assert x * d == d + (x - 1) * d;
      assert (x - 1) * d >= 0;
    }
  }

  /** The quotient is the unique q with q * d <= m < q * d + d. */
  lemma DivUnique(m: int, d: int, k: int)
    requires d > 0 && k * d <= m < k * d + d
    ensures m / d == k
  {
    var q := m / d;
    var r := m % d;
    assert m == q * d + r && 0 <= r < d;
    assert (q - k) * d == q * d - k * d;
    assert (k - q) * d == k * d - q * d;
    AtLeastOnce(q - k, d);
    AtLeastOnce(k - q, d);
  }

  /** There are `Math.ceil(records.length / size)` batches. */
  lemma {:induction false} BatchesCount<T>(records: seq<T>, size: nat)
    requires size > 0
    ensures |Batches(records, size)| == (|records| + size - 1) / size
    decreases |records|
  {
    if records == [] {
      DivUnique(size - 1, size, 0);
    } else if |records| <= size {
      DivUnique(|records| + size - 1, size, 1);
    } else {
      BatchesCount(records[size..], size);
      var q := (|records| - 1) / size;
      DivUnique(|records| - 1, size, q);
      assert (q + 1) * size == q * size + size;
      DivUnique(|records| + size - 1, size, q + 1);
    }
  }

  lemma NextBatch<T>(records: seq<T>, size: nat, i: nat)
    requires size > 0 && i < |records|
    ensures Batches(records[i..], size)
      == [records[i..Min(i + size, |records|)]] + Batches(records[Min(i + size, |records|)..], size)
  {
    if |records| - i > size {
      assert records[i..][..size] == records[i..i + size];
      assert records[i..][size..] == records[i + size..];
    } else {
      assert records[i..Min(i + size, |records|)] == records[i..];
      assert records[Min(i + size, |records|)..] == [];
    }
  }

  /** One more batch taken by a loop that has already collected `done`. */
  lemma BatchesStep<T>(records: seq<T>, size: nat, i: nat, done: seq<seq<T>>)
    requires size > 0 && i < |records|
    requires done + Batches(records[i..], size) == Batches(records, size)
    ensures (done + [records[i..Min(i + size, |records|)]]) + Batches(records[Min(i + size, |records|)..], size)
      == Batches(records, size)
  {
    NextBatch(records, size, i);
    var b := records[i..Min(i + size, |records|)];
    AppendAssoc(done, [b], Batches(records[Min(i + size, |records|)..], size));
  }
}
