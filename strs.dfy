/** String helpers with the semantics of the JavaScript built-ins the services use.
    Case mapping covers ASCII letters only. */
module Str {
  import opened Wrappers

  /** The characters matched by JavaScript's `\s` and removed by `String.prototype.trim`. */
  predicate IsSpace(c: char) {
    c == ' ' || c == '\t' || c == '\n' || c == '\U{000B}' || c == '\U{000C}' || c == '\r'
    || c == '\U{00A0}' || c == '\U{1680}' || ('\U{2000}' <= c <= '\U{200A}')
    || c == '\U{2028}' || c == '\U{2029}' || c == '\U{202F}' || c == '\U{205F}'
    || c == '\U{3000}' || c == '\U{FEFF}'
  }

  predicate IsBlank(s: string) {
    forall i :: 0 <= i < |s| ==> IsSpace(s[i])
  }

  predicate IsDigit(c: char) { '0' <= c <= '9' }
  predicate IsUpper(c: char) { 'A' <= c <= 'Z' }
  predicate IsLower(c: char) { 'a' <= c <= 'z' }

  /** JavaScript's `\w`: an ASCII letter, digit or underscore. */
  predicate IsWordChar(c: char) { IsLower(c) || IsUpper(c) || IsDigit(c) || c == '_' }

  predicate HasDigit(s: string) { exists i :: 0 <= i < |s| && IsDigit(s[i]) }

  /** Python's `str.isdigit` restricted to ASCII digits: non-empty and all digits. */
  predicate AllDigits(s: string) {
    |s| > 0 && forall i :: 0 <= i < |s| ==> IsDigit(s[i])
  }

  /** `trimStart`: drops the leading white space. */
  function TrimStart(s: string): string
    decreases |s|
  {
    if |s| > 0 && IsSpace(s[0]) then TrimStart(s[1..]) else s
  }

  /** `trimEnd`: drops the trailing white space. */
  function TrimEnd(s: string): string
    decreases |s|
  {
    if |s| > 0 && IsSpace(s[|s| - 1]) then TrimEnd(s[..|s| - 1]) else s
  }

  /** TrimStart removes a blank prefix and leaves a suffix that does not start with space. */
  lemma {:induction false} TrimStartSpec(s: string)
    ensures var r := TrimStart(s);
      && |r| <= |s| && r == s[|s| - |r|..]
      && (r == [] || !IsSpace(r[0]))
      && IsBlank(s[..|s| - |r|])
    decreases |s|
  {
    if |s| > 0 && IsSpace(s[0]) {
      TrimStartSpec(s[1..]);
      var r := TrimStart(s[1..]);
      assert s[1..][|s| - 1 - |r|..] == s[|s| - |r|..];
      var pre := s[..|s| - |r|];
      forall i | 0 <= i < |pre| ensures IsSpace(pre[i]) {
        if i > 0 { assert pre[i] == s[1..][..|s| - 1 - |r|][i - 1]; }
      }
    }
  }

  /** TrimEnd removes a blank suffix and leaves a prefix that does not end with space. */
  lemma {:induction false} TrimEndSpec(s: string)
    ensures var r := TrimEnd(s);
      && |r| <= |s| && r == s[..|r|]
      && (r == [] || !IsSpace(r[|r| - 1]))
      && IsBlank(s[|r|..])
    decreases |s|
  {
    if |s| > 0 && IsSpace(s[|s| - 1]) {
      var s' := s[..|s| - 1];
      TrimEndSpec(s');
      var r := TrimEnd(s');
      assert s'[..|r|] == s[..|r|];
      var post := s[|r|..];
      forall i | 0 <= i < |post| ensures IsSpace(post[i]) {
        if i < |s| - 1 - |r| { assert post[i] == s'[|r|..][i]; }
      }
    }
  }

  /** `String.prototype.trim`. */
  function Trim(s: string): string {
    TrimEnd(TrimStart(s))
  }

  lemma TrimShape(s: string)
    ensures var t := Trim(s); t == [] || (!IsSpace(t[0]) && !IsSpace(t[|t| - 1]))
  {
    var a := TrimStart(s);
    var t := TrimEnd(a);
    TrimStartSpec(s);
    TrimEndSpec(a);
    if t != [] {
      assert t[0] == a[0];
    }
  }

  /** Trimming yields "" exactly for blank strings. */
  lemma TrimEmptyIffBlank(s: string)
    ensures Trim(s) == "" <==> IsBlank(s)
  {
    var a := TrimStart(s);
    TrimStartSpec(s);
    TrimEndSpec(a);
    if Trim(s) == "" {
      assert IsBlank(a[0..]);
      assert a[0..] == a;
      assert a == [];
      forall i | 0 <= i < |s| ensures IsSpace(s[i]) {
        assert s[i] == s[..|s| - |a|][i];
      }
    }
  }

  /** Trimming a string that has no outer white space leaves it unchanged. */
  lemma TrimNoOuterSpace(s: string)
    requires s == [] || (!IsSpace(s[0]) && !IsSpace(s[|s| - 1]))
    ensures Trim(s) == s
  {
  }

  function LowerChar(c: char): char {
    if IsUpper(c) then (c as int + 32) as char else c
  }

  /** `toLowerCase` on ASCII letters. */
  function Lower(s: string): (r: string)
    ensures |r| == |s|
    ensures forall i :: 0 <= i < |s| ==> r[i] == LowerChar(s[i])
  {
    seq(|s|, i requires 0 <= i < |s| => LowerChar(s[i]))
  }

  function UpperChar(c: char): char {
    if IsLower(c) then (c as int - 32) as char else c
  }

  /** `toUpperCase` on ASCII letters. */
  function Upper(s: string): (r: string)
    ensures |r| == |s|
    ensures forall i :: 0 <= i < |s| ==> r[i] == UpperChar(s[i])
  {
    seq(|s|, i requires 0 <= i < |s| => UpperChar(s[i]))
  }

  predicate StartsWith(s: string, p: string) {
    |p| <= |s| && s[..|p|] == p
  }

  lemma StartsWithFirst(s: string, p: string)
    requires |p| > 0 && StartsWith(s, p)
    ensures s[0] == p[0]
  {
    assert s[..|p|][0] == s[0];
  }

  lemma PrefixStarts(p: string, t: string)
    ensures StartsWith(p + t, p)
  {
    assert (p + t)[..|p|] == p;
  }

  predicate EndsWith(s: string, p: string) {
    |p| <= |s| && s[|s| - |p|..] == p
  }

  /** t occurs in s at index i. */
  predicate At(s: string, t: string, i: int) {
    0 <= i && i + |t| <= |s| && s[i..i + |t|] == t
  }

  /** t (lower case) occurs at index i of s, ignoring the case of s (the `/i` flag). */
  predicate AtIgnoringCase(s: string, t: string, i: int) {
    0 <= i && i + |t| <= |s| && Lower(s[i..i + |t|]) == t
  }

  /** Character-by-character comparison of t[k..] with s[i + k..]. */
  predicate MatchesFrom(s: string, t: string, i: nat, k: nat)
    requires i + |t| <= |s| && k <= |t|
    decreases |t| - k
  {
    k == |t| || (s[i + k] == t[k] && MatchesFrom(s, t, i, k + 1))
  }

  /** The test `indexOf` performs at one index; the same as `At`, see `OccursAt`. */
  predicate Occurs(s: string, t: string, i: nat) {
    i + |t| <= |s| && MatchesFrom(s, t, i, 0)
  }

  lemma {:induction false} MatchesFromSpec(s: string, t: string, i: nat, k: nat)
    requires i + |t| <= |s| && k <= |t|
    ensures MatchesFrom(s, t, i, k) <==> forall j :: k <= j < |t| ==> s[i + j] == t[j]
    decreases |t| - k
  {
    if k < |t| {
      MatchesFromSpec(s, t, i, k + 1);
    }
  }

  lemma OccursAt(s: string, t: string, i: nat)
    ensures Occurs(s, t, i) <==> At(s, t, i)
  {
    if i + |t| <= |s| {
      MatchesFromSpec(s, t, i, 0);
      if MatchesFrom(s, t, i, 0) {
        assert s[i..i + |t|] == t;
      } else {
        var j :| 0 <= j < |t| && s[i + j] != t[j];
        assert s[i..i + |t|][j] != t[j];
      }
    }
  }

  /** `s.indexOf(t, from)`: the first index at or after `from` where t occurs. */
  function IndexOf(s: string, t: string, from: nat): (r: Option<nat>)
    ensures r.Some? ==> from <= r.value && Occurs(s, t, r.value)
    decreases |s| - from
  {
    if from + |t| > |s| then None
    else if Occurs(s, t, from) then Some(from)
    else IndexOf(s, t, from + 1)
  }

  /** The index found is an occurrence and the first one at or after `from`; `None` means
      there is none. */
  lemma {:induction false} IndexOfFirst(s: string, t: string, from: nat)
    ensures var r := IndexOf(s, t, from);
      && (r.Some? ==> At(s, t, r.value))
      && (r.Some? ==> forall j :: from <= j < r.value ==> !At(s, t, j))
      && (r.None? ==> forall j :: from <= j ==> !At(s, t, j))
    decreases |s| - from
  {
    if from + |t| <= |s| {
      OccursAt(s, t, from);
      if !Occurs(s, t, from) {
        IndexOfFirst(s, t, from + 1);
      }
    }
  }

  /** Conversely, an occurrence with no earlier one from `from` on is the one found. */
  lemma IndexOfIs(s: string, t: string, from: nat, i: nat)
    requires from <= i && At(s, t, i) && forall j :: from <= j < i ==> !At(s, t, j)
    ensures IndexOf(s, t, from) == Some(i)
  {
    IndexOfFirst(s, t, from);
    var r := IndexOf(s, t, from);
  }

  /** No occurrence at or after `from` means `None`. */
  lemma IndexOfNone(s: string, t: string, from: nat)
    requires forall j :: from <= j ==> !At(s, t, j)
    ensures IndexOf(s, t, from) == None
  {
    IndexOfFirst(s, t, from);
  }

  /** A one-character pattern occurs exactly where that character is. */
  lemma AtChar(s: string, ch: char, j: int)
    ensures At(s, [ch], j) <==> 0 <= j < |s| && s[j] == ch
  {
    if 0 <= j < |s| {
      assert s[j..j + 1][0] == s[j];
      if s[j] == ch { assert s[j..j + 1] == [ch]; }
    }
  }

  /** `indexOf` of a character finds its first position at or after `from`. */
  lemma IndexOfChar(s: string, ch: char, from: nat, i: nat)
    requires from <= i < |s| && s[i] == ch && forall j :: from <= j < i ==> s[j] != ch
    ensures IndexOf(s, [ch], from) == Some(i)
  {
    forall j | from <= j < i ensures !At(s, [ch], j) { AtChar(s, ch, j); }
    AtChar(s, ch, i);
    IndexOfIs(s, [ch], from, i);
  }

  /** `indexOf` of a character absent from s[from..] is -1. */
  lemma IndexOfNoChar(s: string, ch: char, from: nat)
    requires forall j :: from <= j < |s| ==> s[j] != ch
    ensures IndexOf(s, [ch], from) == None
  {
    forall j | from <= j ensures !At(s, [ch], j) { AtChar(s, ch, j); }
    IndexOfNone(s, [ch], from);
  }

  lemma AtFirst(s: string, t: string, j: int)
    requires At(s, t, j) && |t| > 0
    ensures s[j] == t[0]
  {
    assert s[j..j + |t|][0] == s[j];
  }

  /** A pattern whose first character does not occur in s[from..] is not found. */
  lemma IndexOfNoFirst(s: string, t: string, from: nat)
    requires |t| > 0 && forall j :: from <= j < |s| ==> s[j] != t[0]
    ensures IndexOf(s, t, from) == None
  {
    forall j | from <= j ensures !At(s, t, j) {
      if At(s, t, j) { AtFirst(s, t, j); }
    }
    IndexOfNone(s, t, from);
  }

  /** `s.includes(t)`. */
  predicate Contains(s: string, t: string) {
    IndexOf(s, t, 0).Some?
  }

  lemma ContainsAt(s: string, t: string, i: int)
    requires At(s, t, i)
    ensures Contains(s, t)
  {
    IndexOfFirst(s, t, 0);
  }

  lemma ContainsWitness(s: string, t: string) returns (i: nat)
    requires Contains(s, t)
    ensures At(s, t, i)
  {
    IndexOfFirst(s, t, 0);
    i := IndexOf(s, t, 0).value;
  }

  /** `parts.join(sep)`. */
  function Join(parts: seq<string>, sep: string): string {
    if parts == [] then ""
    else if |parts| == 1 then parts[0]
    else parts[0] + sep + Join(parts[1..], sep)
  }

  lemma JoinCons(x: string, rest: seq<string>, sep: string)
    requires rest != []
    ensures Join([x] + rest, sep) == x + sep + Join(rest, sep)
  {
    assert ([x] + rest)[1..] == rest;
  }

  /** First index of a character satisfying `IsSpace`, if any. */
  function FirstSpace(s: string, from: nat): (r: Option<nat>)
    ensures r.Some? ==> from <= r.value < |s| && IsSpace(s[r.value])
    ensures r.Some? ==> forall j :: from <= j < r.value ==> !IsSpace(s[j])
    ensures r.None? ==> forall j :: from <= j < |s| ==> !IsSpace(s[j])
    decreases |s| - from
  {
    if from >= |s| then None
    else if IsSpace(s[from]) then Some(from)
    else FirstSpace(s, from + 1)
  }

  /** End of the run of white space that starts at index i. */
  function SkipSpaces(s: string, i: nat): (j: nat)
    requires i <= |s|
    ensures i <= j <= |s|
    ensures forall k :: i <= k < j ==> IsSpace(s[k])
    ensures j == |s| || !IsSpace(s[j])
    decreases |s| - i
  {
    if i < |s| && IsSpace(s[i]) then SkipSpaces(s, i + 1) else i
  }

  /** `s.split(/\s+/)`: the pieces between maximal runs of white space; a leading or
      trailing run yields an empty first or last piece, and "" splits to [""]. */
  function SplitWs(s: string): (r: seq<string>)
    ensures |r| >= 1
    ensures forall k :: 0 <= k < |r| ==> !exists i :: 0 <= i < |r[k]| && IsSpace(r[k][i])
    decreases |s|
  {
    match FirstSpace(s, 0)
    case None => [s]
    case Some(i) =>
      var j := SkipSpaces(s, i);
      [s[..i]] + SplitWs(s[j..])
  }

  /** `s.replace(/\s+/g, w)`: every maximal run of white space becomes `w`. */
  function ReplaceWs(s: string, w: string): (r: string)
    ensures |w| <= 1 ==> |r| <= |s|
    ensures (forall k :: 0 <= k < |w| ==> !IsSpace(w[k])) ==> forall k :: 0 <= k < |r| ==> !IsSpace(r[k])
    decreases |s|
  {
    match FirstSpace(s, 0)
    case None => s
    case Some(i) =>
      var j := SkipSpaces(s, i);
      var rest := ReplaceWs(s[j..], w);
      assert forall k :: 0 <= k < i ==> !IsSpace(s[..i][k]);
      s[..i] + w + rest
  }

  /** First index of character c, if any. */
  function CharIndex(s: string, c: char): (r: Option<nat>)
    ensures r.Some? ==> r.value < |s| && s[r.value] == c && c !in s[..r.value]
    ensures r.None? ==> c !in s
  {
    if s == [] then None
    else if s[0] == c then Some(0)
    else match CharIndex(s[1..], c)
      case None => None
      case Some(k) => assert s[..k + 1] == [s[0]] + s[1..][..k]; Some(k + 1)
  }

  /** `s.split(c)` for a one-character separator. */
  function SplitOn(s: string, c: char): (r: seq<string>)
    ensures |r| >= 1
    ensures forall k :: 0 <= k < |r| ==> c !in r[k]
    decreases |s|
  {
    match CharIndex(s, c)
    case None => [s]
    case Some(i) => [s[..i]] + SplitOn(s[i + 1..], c)
  }

  /** Joining the pieces of a split with the separator gives back the string. */
  lemma {:induction false} JoinSplitOn(s: string, c: char)
    ensures Join(SplitOn(s, c), [c]) == s
    decreases |s|
  {
    match CharIndex(s, c)
    case None =>
    case Some(i) =>
      var rest := SplitOn(s[i + 1..], c);
      JoinSplitOn(s[i + 1..], c);
      JoinCons(s[..i], rest, [c]);
      assert s == s[..i] + [c] + s[i + 1..];
  }

  lemma {:induction false} CharIndexAppend(x: string, c: char, y: string)
    requires c !in x
    ensures CharIndex(x + [c] + y, c) == Some(|x|)
    decreases |x|
  {
    if x != [] {
      assert (x + [c] + y)[1..] == x[1..] + [c] + y;
      CharIndexAppend(x[1..], c, y);
    }
  }

  /** Splitting a join of pieces free of the separator gives back the pieces. */
  lemma {:induction false} SplitOnJoin(parts: seq<string>, c: char)
    requires parts != [] && forall k :: 0 <= k < |parts| ==> c !in parts[k]
    ensures SplitOn(Join(parts, [c]), c) == parts
    decreases |parts|
  {
    if |parts| == 1 {
      assert CharIndex(parts[0], c).None?;
    } else {
      var rest := parts[1..];
      var j := Join(rest, [c]);
      JoinCons(parts[0], rest, [c]);
      assert [parts[0]] + rest == parts;
      CharIndexAppend(parts[0], c, j);
      var s := parts[0] + [c] + j;
      assert s[..|parts[0]|] == parts[0];
      assert s[|parts[0]| + 1..] == j;
      SplitOnJoin(rest, c);
    }
  }

  /** A trimmed string after one leading space trims back to itself. */
  lemma TrimLeadSpace(x: string)
    requires Trim(x) == x
    ensures Trim(" " + x) == x
  {
    assert (" " + x)[1..] == x;
  }

  /** Decimal text of a natural number. */
  function NatToString(n: nat): (r: string)
    ensures |r| >= 1
    ensures forall i :: 0 <= i < |r| ==> IsDigit(r[i])
    decreases n
  {
    if n < 10 then [('0' as int + n) as char]
    else NatToString(n / 10) + [('0' as int + n % 10) as char]
  }

  /** Decimal text of an integer, with a leading '-' when negative. */
  function IntToString(n: int): string {
    if n < 0 then "-" + NatToString(-n) else NatToString(n)
  }

  /** Value of a string of decimal digits. */
  function DigitsValue(s: string): nat
    requires forall i :: 0 <= i < |s| ==> IsDigit(s[i])
    decreases |s|
  {
    if s == [] then 0
    else
      assert IsDigit(s[|s| - 1]);
      DigitsValue(s[..|s| - 1]) * 10 + (s[|s| - 1] as int - '0' as int)
  }

  lemma {:induction false} NatToStringValue(n: nat)
    ensures DigitsValue(NatToString(n)) == n
    decreases n
  {
    if n >= 10 {
      var p := NatToString(n / 10);
      var r := NatToString(n);
      NatToStringValue(n / 10);
      assert r[..|r| - 1] == p;
    }
  }

  /** Length of the longest prefix of s[i..] made of digits. */
  function DigitRunEnd(s: string, i: nat): (j: nat)
    requires i <= |s|
    ensures i <= j <= |s|
    ensures forall k :: i <= k < j ==> IsDigit(s[k])
    ensures j == |s| || !IsDigit(s[j])
    decreases |s| - i
  {
    if i < |s| && IsDigit(s[i]) then DigitRunEnd(s, i + 1) else i
  }

  /** `parseInt(s, 10)`: skips leading white space, reads an optional sign and the longest
      run of digits that follows; `None` stands for NaN (no digit there). */
  function ParseInt(s: string): (r: Option<int>)
  {
    var t := TrimStart(s);
    var neg := |t| > 0 && t[0] == '-';
    var start := if |t| > 0 && (t[0] == '-' || t[0] == '+') then 1 else 0;
    var end := DigitRunEnd(t, start);
    if end == start then None
    else
      var v := DigitsValue(t[start..end]);
      var x: int := if neg then -(v as int) else v;
      Some(x)
  }

  lemma {:induction false} ParseIntNat(n: nat)
    ensures ParseInt(NatToString(n)) == Some(n)
  {
    var s := NatToString(n);
    assert s[0] != ' ' && !IsSpace(s[0]);
    assert TrimStart(s) == s;
    assert DigitRunEnd(s, 0) == |s|;
    assert s[0..|s|] == s;
    NatToStringValue(n);
  }

  /** Lexicographic order by code point, as Python compares `str` values and JavaScript's
      default `sort` orders strings. */
  predicate LessEq(a: string, b: string)
    decreases |a|
  {
    a == [] || (b != [] && (a[0] < b[0] || (a[0] == b[0] && LessEq(a[1..], b[1..]))))
  }

  lemma {:induction false} LessEqTotal(a: string, b: string)
    ensures LessEq(a, b) || LessEq(b, a)
    decreases |a|
  {
    if a != [] && b != [] && a[0] == b[0] {
      LessEqTotal(a[1..], b[1..]);
    }
  }

  lemma {:induction false} LessEqTrans(a: string, b: string, c: string)
    requires LessEq(a, b) && LessEq(b, c)
    ensures LessEq(a, c)
    decreases |a|
  {
    if a != [] && b != [] && c != [] && a[0] == b[0] && b[0] == c[0] {
      LessEqTrans(a[1..], b[1..], c[1..]);
    }
  }

  lemma {:induction false} LessEqAntisym(a: string, b: string)
    requires LessEq(a, b) && LessEq(b, a)
    ensures a == b
    decreases |a|
  {
    if a != [] && b != [] {
      LessEqAntisym(a[1..], b[1..]);
      assert a == [a[0]] + a[1..] && b == [b[0]] + b[1..];
    }
  }

  /** `s.substring(a, b)`: both ends are clamped to the length and swapped when a > b. */
  function Substring(s: string, a: nat, b: nat): (r: string)
    ensures a <= b <= |s| ==> r == s[a..b]
    ensures b < a <= |s| ==> r == s[b..a]
    ensures |r| <= |s|
  {
    var x := if a < |s| then a else |s|;
    var y := if b < |s| then b else |s|;
    if x <= y then s[x..y] else s[y..x]
  }

  /** `s.replace(/c/g, r)` for a single character c. */
  function ReplaceChar(s: string, c: char, r: string): string
    decreases |s|
  {
    if s == [] then [] else (if s[0] == c then r else [s[0]]) + ReplaceChar(s[1..], c, r)
  }

  lemma {:induction false} ReplaceAppend(a: string, b: string, c: char, r: string)
    ensures ReplaceChar(a + b, c, r) == ReplaceChar(a, c, r) + ReplaceChar(b, c, r)
    decreases |a|
  {
    if a == [] {
      assert a + b == b;
    } else {
      assert (a + b)[1..] == a[1..] + b;
      ReplaceAppend(a[1..], b, c, r);
    }
  }

  lemma {:induction false} ReplaceNone(s: string, c: char, r: string)
    requires c !in s
    ensures ReplaceChar(s, c, r) == s
    decreases |s|
  {
    if s != [] { ReplaceNone(s[1..], c, r); }
  }

}
