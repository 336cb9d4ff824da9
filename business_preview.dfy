/** The business preview service: it cleans a business name taken from a chat answer,
    finds the business by a normalised name with three levels of looseness, and keeps
    the previews in a cache whose entries live five minutes. The repository's rows and
    the clock reading (`now`, in milliseconds) are parameters. */
module BusinessPreview {
  import opened Wrappers
  import Str

  /** The fields of a repository business the service reads. */
  datatype Business = Business(
    id: Option<string>, name: string, industry: Option<string>, revenue: Option<int>,
    employeeCount: Option<int>, neighborhood: Option<string>, revenueGrowth: Option<real>,
    rating: Option<real>)

  datatype Preview = Preview(
    id: string, name: string, industry: string, revenue: int, employeeCount: int,
    neighborhood: string, revenueGrowth: Option<real>, rating: Option<real>, isVerified: bool)

  /** `v || d` on an optional text. */
  function TextOr(v: Option<string>, d: string): string { if v.Some? && v.value != "" then v.value else d }

  /** `v || 0` on an optional number. */
  function NumOr0(v: Option<int>): int { if v.Some? then v.value else 0 }

  /** The preview built from a found business: missing texts take their defaults, missing
      numbers are 0, and every preview is marked verified. */
  function PreviewOf(b: Business): (p: Preview)
    ensures p.isVerified
    ensures p.name == (if b.name != "" then b.name else "Unknown Business")
    ensures p.industry != "" && p.neighborhood != "" && p.name != ""
    ensures b.industry.None? ==> p.industry == "Unknown"
    ensures b.neighborhood.None? ==> p.neighborhood == "Unknown"
    ensures b.revenue.None? ==> p.revenue == 0
    ensures b.employeeCount.None? ==> p.employeeCount == 0
    ensures p.revenueGrowth == b.revenueGrowth && p.rating == b.rating
  {
    Preview(TextOr(b.id, ""), if b.name != "" then b.name else "Unknown Business",
      TextOr(b.industry, "Unknown"), NumOr0(b.revenue), NumOr0(b.employeeCount),
      TextOr(b.neighborhood, "Unknown"), b.revenueGrowth, b.rating, true)
  }

  // ---------------------------------------------------------------------------
  // Cleaning a name

  const MARKER := "(from our database)"

  /** `replace(/t/gi, "")` for a lower-case literal t: a left-to-right scan that drops
      each occurrence it meets, in any letter case. */
  function DropAll(s: string, t: string): (r: string)
    requires |t| > 0
    ensures |r| <= |s|
    decreases |s|
  {
    if s == [] then s
    else if Str.AtIgnoringCase(s, t, 0) then DropAll(s[|t|..], t)
    else [s[0]] + DropAll(s[1..], t)
  }

  function DropMarkers(s: string): string { DropAll(s, MARKER) }

  /** `replace(/cc/g, "")` for a doubled character c. */
  function DropPairs(s: string, c: char): (r: string)
    ensures |r| <= |s|
    decreases |s|
  {
    if s == [] then s
    else if |s| >= 2 && s[0] == c && s[1] == c then DropPairs(s[2..], c)
    else [s[0]] + DropPairs(s[1..], c)
  }

  predicate Mark(c: char) { c == '*' || c == '_' }

  /** `replace(/[*_]/g, "")`. */
  function DropMarks(s: string): (r: string)
    ensures |r| <= |s|
    decreases |s|
  {
    if s == [] then s
    else if Mark(s[0]) then DropMarks(s[1..])
    else [s[0]] + DropMarks(s[1..])
  }

  /** `cleanBusinessName`. */
  function CleanName(name: string): string {
    Str.Trim(DropMarks(DropPairs(DropPairs(DropMarkers(name), '*'), '_')))
  }

  /** Every step of the cleaning only removes characters. */
  lemma {:induction false} DropAllChars(s: string, t: string)
    requires |t| > 0
    ensures forall c :: c in DropAll(s, t) ==> c in s
    decreases |s|
  {
    if s != [] {
      if Str.AtIgnoringCase(s, t, 0) {
        DropAllChars(s[|t|..], t);
        assert forall c :: c in s[|t|..] ==> c in s;
      } else {
        DropAllChars(s[1..], t);
        assert forall c :: c in s[1..] ==> c in s;
      }
    }
  }

  lemma {:induction false} DropPairsChars(s: string, d: char)
    ensures forall c :: c in DropPairs(s, d) ==> c in s
    decreases |s|
  {
    if s != [] {
      if |s| >= 2 && s[0] == d && s[1] == d {
        DropPairsChars(s[2..], d);
        assert forall c :: c in s[2..] ==> c in s;
      } else {
        DropPairsChars(s[1..], d);
        assert forall c :: c in s[1..] ==> c in s;
      }
    }
  }

  lemma {:induction false} DropMarksProps(s: string)
    ensures forall c :: c in DropMarks(s) ==> c in s && !Mark(c)
    decreases |s|
  {
    if s != [] {
      DropMarksProps(s[1..]);
      assert forall c :: c in s[1..] ==> c in s;
    }
  }

  lemma TrimChars(s: string)
    ensures forall c :: c in Str.Trim(s) ==> c in s
  {
    var a := Str.TrimStart(s);
    Str.TrimStartSpec(s);
    Str.TrimEndSpec(a);
    assert forall c :: c in Str.Trim(s) ==> c in a;
  }

  /** A cleaned name holds no '*' or '_', has no white space at either end, and uses only
      characters of the original. */
  lemma CleanNameProps(name: string)
    ensures var r := CleanName(name);
      (forall c :: c in r ==> !Mark(c) && c in name)
      && (r == [] || (!Str.IsSpace(r[0]) && !Str.IsSpace(r[|r| - 1])))
  {
    var a := DropMarkers(name);
    var b := DropPairs(a, '*');
    var c := DropPairs(b, '_');
    var d := DropMarks(c);
    DropAllChars(name, MARKER);
    DropPairsChars(a, '*');
    DropPairsChars(b, '_');
    DropMarksProps(c);
    TrimChars(d);
    Str.TrimShape(d);
  }

  lemma LowerParen(c: char)
    requires c != '('
    ensures Str.LowerChar(c) != '('
  {
  }

  /** An occurrence met by the scan is dropped whole, whatever its letter case: the text
      before it (holding no copy of the occurrence's first character) is kept and the scan
      goes on after it. */
  lemma {:induction false} OccurrenceDropped(x: string, m: string, y: string, t: string)
    requires |t| > 0 && Str.LowerChar(t[0]) == t[0] && Str.LowerChar(t[0]) !in Str.Lower(x)
    requires |m| == |t| && Str.Lower(m) == t
    ensures DropAll(x + m + y, t) == x + DropAll(y, t)
    decreases |x|
  {
    if x == [] {
      assert x + m + y == m + y;
      DropHit(m, y, t);
    } else {
      var s := x + m + y;
      assert Str.Lower(x)[0] == Str.LowerChar(x[0]);
      assert s[0] == x[0];
      DropSkip(s, t);
      assert s[1..] == x[1..] + m + y;
      LowerTailIn(x);
      OccurrenceDropped(x[1..], m, y, t);
      var d := DropAll(y, t);
      assert [x[0]] + (x[1..] + d) == ([x[0]] + x[1..]) + d;
      assert [x[0]] + x[1..] == x;
    }
  }

  /** A scan that meets the occurrence at its start skips all of it. */
  lemma DropHit(m: string, y: string, t: string)
    requires |t| > 0 && |m| == |t| && Str.Lower(m) == t
    ensures DropAll(m + y, t) == DropAll(y, t)
  {
    var s := m + y;
    assert s[0..|t|] == m;
    assert s[|t|..] == y;
  }

  /** A scan whose first character cannot start the occurrence keeps that character. */
  lemma DropSkip(s: string, t: string)
    requires |t| > 0 && s != [] && Str.LowerChar(s[0]) != t[0]
    ensures DropAll(s, t) == [s[0]] + DropAll(s[1..], t)
  {
    if |t| <= |s| {
      assert Str.Lower(s[0..|t|])[0] == Str.LowerChar(s[0]);
    }
  }

  lemma LowerTailIn(x: string)
    requires x != []
    ensures forall c :: c in Str.Lower(x[1..]) ==> c in Str.Lower(x)
  {
    forall i | 0 <= i < |x| - 1 ensures Str.Lower(x[1..])[i] == Str.Lower(x)[i + 1] {}
  }

  /** A marker met by the scan is dropped whole in any letter case: the text before it,
      holding no '(', is kept and the scan goes on after it. */
  lemma MarkerDropped(x: string, m: string, y: string)
    requires '(' !in x && |m| == |MARKER| && Str.Lower(m) == MARKER
    ensures DropMarkers(x + m + y) == x + DropMarkers(y)
  {
    assert MARKER[0] == '(';
    forall i | 0 <= i < |x| ensures Str.Lower(x)[i] != '(' {
      LowerParen(x[i]);
    }
    OccurrenceDropped(x, m, y, MARKER);
  }

  // ---------------------------------------------------------------------------
  // Normalising a name

  /** The characters `[a-z0-9\s]` keeps. */
  predicate Kept(c: char) { Str.IsLower(c) || Str.IsDigit(c) || Str.IsSpace(c) }

  /** `replace(/[^a-z0-9\s]/g, "")`. */
  function KeepAllowed(s: string): (r: string)
    ensures forall i :: 0 <= i < |r| ==> Kept(r[i])
    ensures (forall i :: 0 <= i < |s| ==> Kept(s[i])) ==> r == s
    decreases |s|
  {
    if s == [] then s
    else
      var r := KeepAllowed(s[1..]);
      if Kept(s[0]) then [s[0]] + r else r
  }

  /** `normalizeForComparison`. */
  function Normalize(name: string): string {
    Str.Trim(Str.ReplaceWs(KeepAllowed(Str.Lower(name)), " "))
  }

  predicate NormalChar(c: char) { Str.IsLower(c) || Str.IsDigit(c) || c == ' ' }

  predicate NoDoubleSpace(s: string) {
    forall i :: 0 <= i < |s| - 1 ==> !(s[i] == ' ' && s[i + 1] == ' ')
  }

  /** Only a-z, 0-9 and single interior spaces. */
  predicate Normal(s: string) {
    (forall i :: 0 <= i < |s| ==> NormalChar(s[i]))
    && NoDoubleSpace(s)
    && (s == [] || (s[0] != ' ' && s[|s| - 1] != ' '))
  }

  /** Collapsing the white space of text made only of kept characters leaves normal
      characters. */
  lemma {:induction false} CollapseChars(t: string)
    requires forall i :: 0 <= i < |t| ==> Kept(t[i])
    ensures forall i :: 0 <= i < |Str.ReplaceWs(t, " ")| ==> NormalChar(Str.ReplaceWs(t, " ")[i])
    decreases |t|
  {
    match Str.FirstSpace(t, 0)
    case None =>
      assert Str.ReplaceWs(t, " ") == t;
    case Some(i) =>
      var j := Str.SkipSpaces(t, i);
      var rest := Str.ReplaceWs(t[j..], " ");
      CollapseChars(t[j..]);
      var u := t[..i] + " " + rest;
      assert Str.ReplaceWs(t, " ") == u;
      forall k | 0 <= k < |u| ensures NormalChar(u[k]) {
        if k < i {
          assert u[k] == t[k] && Kept(t[k]) && !Str.IsSpace(t[k]);
        } else if k > i {
          assert u[k] == rest[k - i - 1];
        } else {
          assert u[k] == ' ';
        }
      }
  }

  /** Collapsing keeps a first character that is not white space. */
  lemma CollapseFirst(t: string)
    requires |t| > 0 && !Str.IsSpace(t[0])
    ensures var u := Str.ReplaceWs(t, " "); |u| > 0 && u[0] == t[0]
  {
    match Str.FirstSpace(t, 0)
    case None =>
    case Some(i) =>
      assert i > 0;
      var j := Str.SkipSpaces(t, i);
      assert Str.ReplaceWs(t, " ") == t[..i] + " " + Str.ReplaceWs(t[j..], " ");
  }

  /** Collapsing leaves no two spaces in a row. */
  lemma {:induction false} CollapseNoDouble(t: string)
    ensures NoDoubleSpace(Str.ReplaceWs(t, " "))
    decreases |t|
  {
    match Str.FirstSpace(t, 0)
    case None =>
      assert Str.ReplaceWs(t, " ") == t;
    case Some(i) =>
      var j := Str.SkipSpaces(t, i);
      var rest := Str.ReplaceWs(t[j..], " ");
      CollapseNoDouble(t[j..]);
      if j < |t| {
        CollapseFirst(t[j..]);
      }
      var u := t[..i] + " " + rest;
      assert Str.ReplaceWs(t, " ") == u;
      forall k | 0 <= k < |u| - 1 ensures !(u[k] == ' ' && u[k + 1] == ' ') {
        if k < i - 1 {
          assert u[k] == t[k];
        } else if k == i - 1 {
          assert u[k] == t[k];
        } else if k == i {
          assert u[k + 1] == rest[0];
          assert j < |t| && !Str.IsSpace(t[j]);
        } else {
          assert u[k] == rest[k - i - 1] && u[k + 1] == rest[k - i];
        }
      }
  }

  lemma SliceKeeps(u: string, a: nat, b: nat)
    requires a <= b <= |u|
    requires (forall i :: 0 <= i < |u| ==> NormalChar(u[i])) && NoDoubleSpace(u)
    ensures (forall i :: 0 <= i < b - a ==> NormalChar(u[a..b][i])) && NoDoubleSpace(u[a..b])
  {
    var v := u[a..b];
    forall i | 0 <= i < |v| - 1 ensures !(v[i] == ' ' && v[i + 1] == ' ') {
      assert v[i] == u[a + i] && v[i + 1] == u[a + i + 1];
    }
  }

  /** Trimming text of normal characters with no double space gives normal text. */
  lemma TrimNormal(u: string)
    requires (forall i :: 0 <= i < |u| ==> NormalChar(u[i])) && NoDoubleSpace(u)
    ensures Normal(Str.Trim(u))
  {
    var a := Str.TrimStart(u);
    Str.TrimStartSpec(u);
    Str.TrimEndSpec(a);
    var v := Str.TrimEnd(a);
    var start := |u| - |a|;
    assert a == u[start..];
    assert v == u[start..start + |v|];
    SliceKeeps(u, start, start + |v|);
    Str.TrimShape(u);
  }

  /** A normalised name is normal. */
  lemma NormalizeProps(name: string)
    ensures Normal(Normalize(name))
  {
    var t := KeepAllowed(Str.Lower(name));
    CollapseChars(t);
    CollapseNoDouble(t);
    TrimNormal(Str.ReplaceWs(t, " "));
  }

  lemma LowerFixed(s: string)
    requires forall i :: 0 <= i < |s| ==> NormalChar(s[i])
    ensures Str.Lower(s) == s
  {
  }

  /** Collapsing leaves text whose only white space is single ' ' characters unchanged. */
  lemma {:induction false} CollapseFixed(s: string)
    requires forall i :: 0 <= i < |s| ==> NormalChar(s[i])
    requires NoDoubleSpace(s)
    ensures Str.ReplaceWs(s, " ") == s
    decreases |s|
  {
    match Str.FirstSpace(s, 0)
    case None =>
    case Some(i) =>
      assert s[i] == ' ';
      assert i + 1 == |s| || s[i + 1] != ' ';
      assert Str.SkipSpaces(s, i + 1) == i + 1;
      var t := s[i + 1..];
      forall k | 0 <= k < |t| - 1 ensures !(t[k] == ' ' && t[k + 1] == ' ') {
        assert t[k] == s[i + 1 + k] && t[k + 1] == s[i + 2 + k];
      }
      CollapseFixed(t);
      assert s == s[..i] + " " + t;
  }

  /** Normal text normalises to itself, so normalising twice is normalising once. */
  lemma NormalFixed(s: string)
    requires Normal(s)
    ensures Normalize(s) == s
  {
    LowerFixed(s);
    CollapseFixed(s);
    Str.TrimNoOuterSpace(s);
  }

  lemma NormalizeIdempotent(name: string)
    ensures Normalize(Normalize(name)) == Normalize(name)
  {
    NormalizeProps(name);
    NormalFixed(Normalize(name));
  }

  // ---------------------------------------------------------------------------
  // Finding a business

  /** `find` over the businesses' normalised names: the first index, from `from` on,
      whose name satisfies p. */
  function FirstWhere(names: seq<string>, p: string -> bool, from: nat): (r: Option<nat>)
    ensures r.Some? ==> from <= r.value < |names| && p(names[r.value])
    ensures r.Some? ==> forall j :: from <= j < r.value ==> !p(names[j])
    ensures r.None? ==> forall j :: from <= j < |names| ==> !p(names[j])
    decreases |names| - from
  {
    if from >= |names| then None
    else if p(names[from]) then Some(from)
    else FirstWhere(names, p, from + 1)
  }

  /** `normalizeForComparison(b.name)` for every business, in list order. */
  function NameKeys(all: seq<Business>): (r: seq<string>)
    ensures |r| == |all|
    ensures forall i :: 0 <= i < |all| ==> r[i] == Normalize(all[i].name)
  {
    seq(|all|, i requires 0 <= i < |all| => Normalize(all[i].name))
  }

  /** The three tests of the `find` calls, on a normalised name. */
  function SameAs(target: string): string -> bool { n => n == target }
  function StartsAs(target: string): string -> bool { n => Str.StartsWith(n, target) }
  function Holds(target: string): string -> bool { n => Str.Contains(n, target) }

  /** The three `find` calls on normalised names: an exact match, else one starting with
      the target, else one containing it. */
  function FindIn(names: seq<string>, target: string): (r: Option<nat>)
    ensures r.Some? ==> r.value < |names|
  {
    var exact := FirstWhere(names, SameAs(target), 0);
    if exact.Some? then exact
    else
      var prefix := FirstWhere(names, StartsAs(target), 0);
      if prefix.Some? then prefix
      else FirstWhere(names, Holds(target), 0)
  }

  /** `findBusinessByName`, as the index of the business found. */
  function FindIndex(all: seq<Business>, name: string): (r: Option<nat>)
    ensures r.Some? ==> r.value < |all|
  {
    FindIn(NameKeys(all), Normalize(name))
  }

  function FindByName(all: seq<Business>, name: string): Option<Business> {
    match FindIndex(all, name)
    case None => None
    case Some(i) => Some(all[i])
  }

  lemma ExactInside(n: string, target: string)
    requires n == target
    ensures Str.StartsWith(n, target)
  {
    assert n[..|target|] == target;
  }

  lemma PrefixedInside(n: string, target: string)
    requires Str.StartsWith(n, target)
    ensures Str.Contains(n, target)
  {
    Str.ContainsAt(n, target, 0);
  }

  /** The first index from `from` on that satisfies p is what `find` returns. */
  lemma {:induction false} FirstWhereIs(names: seq<string>, p: string -> bool, from: nat, i: nat)
    requires from <= i < |names| && p(names[i]) && forall j :: from <= j < i ==> !p(names[j])
    ensures FirstWhere(names, p, from) == Some(i)
    decreases i - from
  {
    if from < i {
      FirstWhereIs(names, p, from + 1, i);
    }
  }

  /** `find` returns nothing when no name from `from` on satisfies p. */
  lemma {:induction false} FirstWhereNone(names: seq<string>, p: string -> bool, from: nat)
    requires forall j :: from <= j < |names| ==> !p(names[j])
    ensures FirstWhere(names, p, from).None?
    decreases |names| - from
  {
    if from < |names| {
      FirstWhereNone(names, p, from + 1);
    }
  }

  /** The first exact match is found. */
  lemma FindExact(names: seq<string>, t: string, i: nat)
    requires i < |names| && names[i] == t && forall j :: 0 <= j < i ==> names[j] != t
    ensures FindIn(names, t) == Some(i)
  {
    FirstWhereIs(names, SameAs(t), 0, i);
  }

  /** With no exact match, the first name starting with the target is found. */
  lemma FindPrefix(names: seq<string>, t: string, i: nat)
    requires forall j :: 0 <= j < |names| ==> names[j] != t
    requires i < |names| && Str.StartsWith(names[i], t) && forall j :: 0 <= j < i ==> !Str.StartsWith(names[j], t)
    ensures FindIn(names, t) == Some(i)
  {
    FirstWhereNone(names, SameAs(t), 0);
    FirstWhereIs(names, StartsAs(t), 0, i);
  }

  /** With no name starting with the target, the first name containing it is found. */
  lemma FindHolding(names: seq<string>, t: string, i: nat)
    requires forall j :: 0 <= j < |names| ==> !Str.StartsWith(names[j], t)
    requires i < |names| && Str.Contains(names[i], t) && forall j :: 0 <= j < i ==> !Str.Contains(names[j], t)
    ensures FindIn(names, t) == Some(i)
  {
    ExactInside(t, t);
    FirstWhereNone(names, SameAs(t), 0);
    FirstWhereNone(names, StartsAs(t), 0);
    FirstWhereIs(names, Holds(t), 0, i);
  }

  /** Whatever is found contains the target, and nothing is found exactly when no name
      contains it. */
  lemma FindFound(names: seq<string>, t: string)
    ensures var r := FindIn(names, t);
      && (r.None? <==> forall j :: 0 <= j < |names| ==> !Str.Contains(names[j], t))
      && (r.Some? ==> Str.Contains(names[r.value], t))
  {
    var e := FirstWhere(names, SameAs(t), 0);
    var f := FirstWhere(names, StartsAs(t), 0);
    if e.Some? {
      ExactInside(names[e.value], t);
      PrefixedInside(names[e.value], t);
    } else if f.Some? {
      PrefixedInside(names[f.value], t);
    }
  }

  /** An exact match of the normalised names wins, then a match at the start, then one
      anywhere, each the first of its kind in list order; nothing is found exactly when no
      normalised name contains the normalised search name. */
  lemma FindProps(names: seq<string>, t: string)
    ensures var r := FindIn(names, t);
      (forall i :: 0 <= i < |names| && names[i] == t && (forall j :: 0 <= j < i ==> names[j] != t) ==> r == Some(i))
      && ((forall j :: 0 <= j < |names| ==> names[j] != t) ==>
        forall i :: (0 <= i < |names| && Str.StartsWith(names[i], t)
          && (forall j :: 0 <= j < i ==> !Str.StartsWith(names[j], t))) ==> r == Some(i))
      && ((forall j :: 0 <= j < |names| ==> !Str.StartsWith(names[j], t)) ==>
        forall i :: (0 <= i < |names| && Str.Contains(names[i], t)
          && (forall j :: 0 <= j < i ==> !Str.Contains(names[j], t))) ==> r == Some(i))
      && (r.None? <==> forall j :: 0 <= j < |names| ==> !Str.Contains(names[j], t))
      && (r.Some? ==> Str.Contains(names[r.value], t))
  {
    forall i | 0 <= i < |names| && names[i] == t && (forall j :: 0 <= j < i ==> names[j] != t)
      ensures FindIn(names, t) == Some(i) { FindExact(names, t, i); }
    if forall j :: 0 <= j < |names| ==> names[j] != t {
      forall i | 0 <= i < |names| && Str.StartsWith(names[i], t) && (forall j :: 0 <= j < i ==> !Str.StartsWith(names[j], t))
        ensures FindIn(names, t) == Some(i) { FindPrefix(names, t, i); }
    }
    if forall j :: 0 <= j < |names| ==> !Str.StartsWith(names[j], t) {
      forall i | 0 <= i < |names| && Str.Contains(names[i], t) && (forall j :: 0 <= j < i ==> !Str.Contains(names[j], t))
        ensures FindIn(names, t) == Some(i) { FindHolding(names, t, i); }
    }
    FindFound(names, t);
  }

  // ---------------------------------------------------------------------------
  // The cache

  datatype Entry = Entry(data: Preview, timestamp: int)

  const CACHE_TTL := 5 * 60 * 1000
  const CACHE_LIMIT := 100

  predicate Expired(e: Entry, now: int) { now - e.timestamp > CACHE_TTL }

  function Unexpired(c: map<string, Entry>, now: int): (r: map<string, Entry>)
    ensures forall k :: k in r <==> k in c && !Expired(c[k], now)
    ensures forall k :: k in r ==> r[k] == c[k]
  {
    map k | k in c && !Expired(c[k], now) :: c[k]
  }

  /** `cachePreview`: store under the lower-cased name; past the size limit, drop the
      expired entries. */
  function Stored(c: map<string, Entry>, name: string, p: Preview, now: int): map<string, Entry> {
    var c1 := c[Str.Lower(name) := Entry(p, now)];
    if |c1| > CACHE_LIMIT then Unexpired(c1, now) else c1
  }

  /** `getCachedPreview`: the answer and the cache after the lookup. */
  function Lookup(c: map<string, Entry>, name: string, now: int): (Option<Preview>, map<string, Entry>) {
    var key := Str.Lower(name);
    if key !in c then (None, c)
    else if Expired(c[key], now) then (None, c - {key})
    else (Some(c[key].data), c)
  }

  /** A lookup answers only with an entry at most five minutes old, deletes an expired
      entry it meets and nothing else, and ignores the letter case of the name. */
  lemma LookupProps(c: map<string, Entry>, name: string, other: string, now: int)
    ensures var (r, c') := Lookup(c, name, now); var key := Str.Lower(name);
      (r.Some? <==> key in c && now - c[key].timestamp <= CACHE_TTL)
      && (r.Some? ==> r.value == c[key].data && c' == c)
      && (key in c && Expired(c[key], now) ==> key !in c' && forall k :: k != key ==> (k in c' <==> k in c))
      && (key !in c ==> c' == c)
    ensures Str.Lower(other) == Str.Lower(name) ==> Lookup(c, other, now) == Lookup(c, name, now)
  {
  }

  /** A stored preview is found fresh right away; below the limit nothing else changes;
      past it exactly the expired entries go, so the cache can stay above the limit. */
  lemma StoredProps(c: map<string, Entry>, name: string, p: Preview, now: int)
    ensures var s := Stored(c, name, p, now);
      Str.Lower(name) in s && s[Str.Lower(name)] == Entry(p, now)
      && Lookup(s, name, now).0 == Some(p)
      && (forall k :: k in s && k != Str.Lower(name) ==> k in c && s[k] == c[k])
      && (forall k :: k in c && k != Str.Lower(name) && !Expired(c[k], now) ==> k in s)
      && (|c[Str.Lower(name) := Entry(p, now)]| <= CACHE_LIMIT ==> s == c[Str.Lower(name) := Entry(p, now)])
  {
  }

  /** When nothing has expired, eviction removes nothing. */
  lemma NothingExpired(c: map<string, Entry>, name: string, p: Preview, now: int)
    requires forall k :: k in c ==> !Expired(c[k], now)
    ensures Stored(c, name, p, now) == c[Str.Lower(name) := Entry(p, now)]
  {
    var c1 := c[Str.Lower(name) := Entry(p, now)];
    assert Unexpired(c1, now) == c1;
  }

  /** `getPreviewByName`: the answer and the cache after it. */
  function ByName(c: map<string, Entry>, all: seq<Business>, businessName: string, now: int)
    : (Option<Preview>, map<string, Entry>)
  {
    var clean := CleanName(businessName);
    var (hit, c1) := Lookup(c, clean, now);
    if hit.Some? then (hit, c1)
    else match FindByName(all, clean)
      case None => (None, c1)
      case Some(b) => (Some(PreviewOf(b)), Stored(c1, clean, PreviewOf(b), now))
  }

  /** A fresh cached preview is answered without a search; otherwise the answer is the
      preview of the business found, which is then cached, or nothing. */
  lemma ByNameProps(c: map<string, Entry>, all: seq<Business>, businessName: string, now: int)
    ensures var clean := CleanName(businessName); var (r, c') := ByName(c, all, businessName, now);
      (Lookup(c, clean, now).0.Some? ==> r == Lookup(c, clean, now).0)
      && (Lookup(c, clean, now).0.None? && FindByName(all, clean).Some? ==>
        r == Some(PreviewOf(FindByName(all, clean).value)) && Lookup(c', clean, now).0 == r && r.value.isVerified)
      && (r.None? <==> Lookup(c, clean, now).0.None? && FindByName(all, clean).None?)
  {
    var clean := CleanName(businessName);
    var (hit, c1) := Lookup(c, clean, now);
    if hit.None? && FindByName(all, clean).Some? {
      StoredProps(c1, clean, PreviewOf(FindByName(all, clean).value), now);
    }
  }

  // ---------------------------------------------------------------------------
  // Several previews at once

  /** No pair after the i-th among the first n has key k. */
  predicate LastWith(keys: seq<string>, k: string, i: nat, n: nat)
    requires n <= |keys|
  {
    forall j :: i < j < n ==> keys[j] != k
  }

  /** `new Map(entries)` over the first n pairs (keys[i], all[i]): a later pair with the
      same key replaces an earlier one. */
  function IndexBy(all: seq<Business>, keys: seq<string>, n: nat): (m: map<string, Business>)
    requires |keys| == |all| && n <= |all|
    ensures forall k :: k in m ==> exists i :: 0 <= i < n && keys[i] == k && m[k] == all[i] && LastWith(keys, k, i, n)
    ensures forall i :: 0 <= i < n ==> keys[i] in m
  {
    if n == 0 then map[]
    else IndexBy(all, keys, n - 1)[keys[n - 1] := all[n - 1]]
  }

  /** `new Map(all.map(b => [normalize(b.name), b]))`. */
  function ByNorm(all: seq<Business>): map<string, Business> {
    IndexBy(all, NameKeys(all), |all|)
  }

  /** A key is in the index exactly when it is the normalised name of a business, and it
      maps to such a business. */
  lemma ByNormProps(all: seq<Business>)
    ensures forall k :: k in ByNorm(all) ==> ByNorm(all)[k] in all && Normalize(ByNorm(all)[k].name) == k
    ensures forall k :: k in ByNorm(all) ==> exists i :: 0 <= i < |all| && ByNorm(all)[k] == all[i] && LastNamed(all, k, i)
    ensures forall i :: 0 <= i < |all| ==> Normalize(all[i].name) in ByNorm(all)
  {
    var keys := NameKeys(all);
    forall k | k in ByNorm(all) ensures exists i :: 0 <= i < |all| && ByNorm(all)[k] == all[i] && LastNamed(all, k, i) {
      var i :| 0 <= i < |all| && keys[i] == k && ByNorm(all)[k] == all[i] && LastWith(keys, k, i, |all|);
      assert LastNamed(all, k, i);
    }
  }

  /** all[i] is the last business whose normalised name is k. */
  predicate LastNamed(all: seq<Business>, k: string, i: nat) {
    forall j :: i < j < |all| ==> Normalize(all[j].name) != k
  }

  /** The cleaned names, and their normalised forms. */
  function Cleaned(names: seq<string>): (r: seq<string>)
    ensures |r| == |names|
    ensures forall i :: 0 <= i < |names| ==> r[i] == CleanName(names[i])
  {
    seq(|names|, i requires 0 <= i < |names| => CleanName(names[i]))
  }

  function Normalized(names: seq<string>): (r: seq<string>)
    ensures |r| == |names|
    ensures forall i :: 0 <= i < |names| ==> r[i] == Normalize(names[i])
  {
    seq(|names|, i requires 0 <= i < |names| => Normalize(names[i]))
  }

  /** The previews found for the first n names, keyed by cleaned name; `keys` are the
      looked-up forms of the names. */
  function PreviewsOf(cleaned: seq<string>, keys: seq<string>, index: map<string, Business>, n: nat)
    : map<string, Preview>
    requires |cleaned| == |keys| && n <= |keys|
  {
    if n == 0 then map[]
    else
      var m := PreviewsOf(cleaned, keys, index, n - 1);
      if keys[n - 1] in index then m[cleaned[n - 1] := PreviewOf(index[keys[n - 1]])] else m
  }

  /** The cache after the first n names were looked up. */
  function CachedAll(c: map<string, Entry>, cleaned: seq<string>, keys: seq<string>, index: map<string, Business>,
    now: int, n: nat): map<string, Entry>
    requires |cleaned| == |keys| && n <= |keys|
  {
    if n == 0 then c
    else
      var m := CachedAll(c, cleaned, keys, index, now, n - 1);
      if keys[n - 1] in index then Stored(m, cleaned[n - 1], PreviewOf(index[keys[n - 1]]), now) else m
  }

  /** A name gets a preview exactly when its key is in the index, and the preview is of
      the business indexed under the key of a name with that cleaned form. */
  lemma {:induction false} PreviewsOfProps(cleaned: seq<string>, keys: seq<string>, index: map<string, Business>, n: nat)
    requires |cleaned| == |keys| && n <= |keys|
    ensures forall k :: k in PreviewsOf(cleaned, keys, index, n) ==>
      exists j :: 0 <= j < n && cleaned[j] == k && keys[j] in index
        && PreviewsOf(cleaned, keys, index, n)[k] == PreviewOf(index[keys[j]])
    ensures forall j :: 0 <= j < n && keys[j] in index ==> cleaned[j] in PreviewsOf(cleaned, keys, index, n)
  {
    if n > 0 {
      PreviewsOfProps(cleaned, keys, index, n - 1);
      var prev := PreviewsOf(cleaned, keys, index, n - 1);
      var m := PreviewsOf(cleaned, keys, index, n);
      forall k | k in m
        ensures exists j :: 0 <= j < n && cleaned[j] == k && keys[j] in index && m[k] == PreviewOf(index[keys[j]])
      {
        if keys[n - 1] in index && k == cleaned[n - 1] {
          assert m[k] == PreviewOf(index[keys[n - 1]]);
          assert 0 <= n - 1 < n && cleaned[n - 1] == k && keys[n - 1] in index;
        } else {
          assert k in prev && m[k] == prev[k];
          var j :| 0 <= j < n - 1 && cleaned[j] == k && keys[j] in index && prev[k] == PreviewOf(index[keys[j]]);
          assert 0 <= j < n;
        }
      }
    }
  }

  /** Every preview `getMultiplePreviews` answers sits under the cleaned form of one of the
      names, and is the preview of the last business in the list whose normalised name is
      that form normalised: `new Map(entries)` lets a later entry replace an earlier one. */
  lemma MultiplePreviewsSound(names: seq<string>, all: seq<Business>)
    ensures var cleaned := Cleaned(names);
      var m := PreviewsOf(cleaned, Normalized(cleaned), ByNorm(all), |names|);
      forall k :: k in m ==>
        && (exists j :: 0 <= j < |names| && CleanName(names[j]) == k)
        && exists i :: (0 <= i < |all| && Normalize(all[i].name) == Normalize(k) && LastNamed(all, Normalize(k), i)
             && m[k] == PreviewOf(all[i]))
  {
    var cleaned := Cleaned(names);
    var keys := Normalized(cleaned);
    var index := ByNorm(all);
    ByNormProps(all);
    PreviewsOfProps(cleaned, keys, index, |names|);
    var m := PreviewsOf(cleaned, keys, index, |names|);
    forall k | k in m
      ensures && (exists j :: 0 <= j < |names| && CleanName(names[j]) == k)
        && exists i :: (0 <= i < |all| && Normalize(all[i].name) == Normalize(k) && LastNamed(all, Normalize(k), i)
             && m[k] == PreviewOf(all[i]))
    {
      var j :| 0 <= j < |names| && cleaned[j] == k && keys[j] in index && m[k] == PreviewOf(index[keys[j]]);
      assert keys[j] == Normalize(k);
      var i :| 0 <= i < |all| && index[keys[j]] == all[i] && LastNamed(all, keys[j], i);
      assert Normalize(all[i].name) == keys[j];
    }
  }

  /** Every name whose cleaned, normalised form is the normalised name of some business is
      answered. */
  lemma MultiplePreviewsComplete(names: seq<string>, all: seq<Business>)
    ensures var cleaned := Cleaned(names);
      var m := PreviewsOf(cleaned, Normalized(cleaned), ByNorm(all), |names|);
      forall j, i :: 0 <= j < |names| && 0 <= i < |all| && Normalize(all[i].name) == Normalize(CleanName(names[j])) ==>
        CleanName(names[j]) in m
  {
    var cleaned := Cleaned(names);
    var keys := Normalized(cleaned);
    var index := ByNorm(all);
    ByNormProps(all);
    PreviewsOfProps(cleaned, keys, index, |names|);
    forall j, i | 0 <= j < |names| && 0 <= i < |all| && Normalize(all[i].name) == Normalize(CleanName(names[j]))
      ensures CleanName(names[j]) in PreviewsOf(cleaned, keys, index, |names|)
    {
      assert keys[j] == Normalize(all[i].name);
    }
  }

  // ---------------------------------------------------------------------------
  // The service

  class PreviewService {
    var cache: map<string, Entry>

    constructor()
      ensures cache == map[]
    {
      cache := map[];
    }

    /** `clearCache`. */
    method ClearCache()
      modifies this
      ensures cache == map[]
    {
      cache := map[];
    }

    /** `getCachedPreview`. */
    method GetCached(name: string, now: int) returns (r: Option<Preview>)
      modifies this
      ensures (r, cache) == Lookup(old(cache), name, now)
    {
      var key := Str.Lower(name);
      if key !in cache {
        return None;
      }
      if now - cache[key].timestamp > CACHE_TTL {
        cache := cache - {key};
        return None;
      }
      r := Some(cache[key].data);
    }

    /** `cachePreview`: the eviction loop visits every entry and deletes the expired
        ones. */
    method CachePreview(name: string, p: Preview, now: int)
      modifies this
      ensures cache == Stored(old(cache), name, p, now)
    {
      cache := cache[Str.Lower(name) := Entry(p, now)];
      if |cache| > CACHE_LIMIT {
        var full := cache;
        var todo := cache.Keys;
        while todo != {}
          invariant todo <= full.Keys
          invariant forall k :: k in cache <==> k in full && (k in todo || !Expired(full[k], now))
          invariant forall k :: k in cache ==> cache[k] == full[k]
          decreases |todo|
        {
          var k :| k in todo;
          if now - full[k].timestamp > CACHE_TTL {
            cache := cache - {k};
          }
          todo := todo - {k};
        }
        assert cache == Unexpired(full, now);
      }
    }

    /** `getPreviewByName`. */
    method GetPreviewByName(businessName: string, all: seq<Business>, now: int) returns (r: Option<Preview>)
      modifies this
      ensures (r, cache) == ByName(old(cache), all, businessName, now)
    {
      var clean := CleanName(businessName);
      var cached := GetCached(clean, now);
      if cached.Some? {
        return cached;
      }
      var business := FindByName(all, clean);
      if business.None? {
        return None;
      }
      var preview := PreviewOf(business.value);
      CachePreview(clean, preview, now);
      r := Some(preview);
    }

    /** `getMultiplePreviews`: one pass over the names, storing and caching each preview
        found by exact normalised name. */
    method GetMultiplePreviews(names: seq<string>, all: seq<Business>, now: int) returns (previews: map<string, Preview>)
      modifies this
      ensures previews == PreviewsOf(Cleaned(names), Normalized(Cleaned(names)), ByNorm(all), |names|)
      ensures cache == CachedAll(old(cache), Cleaned(names), Normalized(Cleaned(names)), ByNorm(all), now, |names|)
    {
      var index := ByNorm(all);
      // Cleaning and normalising are pure, so each name's forms are computed up front.
      var cleaned := Cleaned(names);
      var keys := Normalized(cleaned);
      previews := StoreEach(cleaned, keys, index, now);
    }

    /** The loop of `getMultiplePreviews`: each name whose key is indexed gets the preview
        of the indexed business, stored and cached under its cleaned form. */
    method StoreEach(cleaned: seq<string>, keys: seq<string>, index: map<string, Business>, now: int)
      returns (previews: map<string, Preview>)
      requires |cleaned| == |keys|
      modifies this
      ensures previews == PreviewsOf(cleaned, keys, index, |keys|)
      ensures cache == CachedAll(old(cache), cleaned, keys, index, now, |keys|)
    {
      previews := map[];
      for i := 0 to |keys|
        invariant previews == PreviewsOf(cleaned, keys, index, i)
        invariant cache == CachedAll(old(cache), cleaned, keys, index, now, i)
      {
        if keys[i] in index {
          var preview := PreviewOf(index[keys[i]]);
          previews := previews[cleaned[i] := preview];
          CachePreview(cleaned[i], preview, now);
        }
      }
    }
  }
}
