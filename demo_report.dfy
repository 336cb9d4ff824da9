/** The demo-data report (`analyze_json_file` in analyze_demo_data.py). A JSON document is
    read, a sequence of report lines is printed, and any exception raised on the way ends
    the report with one error line (the three `except` clauses). Printed lines are kept as
    structured values; Python's `str()` rendering of the values they carry is not modelled. */
module DemoReport {
  import opened Wrappers
  import Str
  import Tally
  import Ranking
  import Seqs
  import Dedupe

  /** A parsed JSON value. JSON numbers are integers in this model. */
  datatype Json =
    | JNull
    | JBool(b: bool)
    | JInt(i: int)
    | JStr(s: string)
    | JArr(items: seq<Json>)
    | JObj(fields: seq<(string, Json)>)

  /** What `open(filename)` followed by `json.load` produced. */
  datatype FileInput =
    | NotFound                     // FileNotFoundError
    | BadJson(diagnostic: string)  // json.JSONDecodeError
    | Unreadable(reason: string)   // any other error while opening or decoding the file
    | Parsed(data: Json)

  /** The exceptions the report body can raise; all reach the generic `except Exception`. */
  datatype PyError =
    | NoAttribute(typeName: string, attr: string)  // AttributeError: '<type>' object has no attribute '<attr>'
    | NoLen(typeName: string)                      // TypeError: object of type '<type>' has no len()
    | Unhashable(typeName: string)                 // TypeError: unhashable type: '<type>'
    | BadSliceKey                                  // a dict indexed with the slice [:5]
    | Unorderable                                  // TypeError: '<' not supported between instances
    | Unbound(name: string)                        // a local read before it was ever assigned
    | OsError(reason: string)

  datatype Section = IdPatterns | Industries | Neighborhoods | Duplicates | Ages

  datatype Line =
    | Heading(text: string)                 // a fixed line: banners and section titles
    | FileName(name: string)
    | Field(title: string, value: Json)     // "<title>: <value>"
    | QualityFlag(key: string, value: Json)
    | ArrayCount(n: nat)
    | Sample(number: nat, id: Json, bizName: Json)
    | Entry(section: Section, category: Json, count: nat)
    | DuplicateTotal(n: nat)
    | KeyCount(n: nat)
    | KeyName(key: string)
    | AddressField(key: string, value: Json)
    | HasEmbedding(present: bool)
    | Claims(value: Json)
    | Contains(n: nat)
    | IsDemo(value: Json)
    | DataVersion(value: Json)
    | FileNotFound(filename: string)
    | InvalidJson(diagnostic: string)
    | Failure(error: PyError)

  /** The lines printed so far and the exception that stopped the report, if any. */
  datatype Run = Run(lines: seq<Line>, err: Option<PyError>)

  /** `"=" * 60`. */
  function Rule(): (r: string)
    ensures |r| == 60 && forall i :: 0 <= i < 60 ==> r[i] == '='
  {
    seq(60, _ => '=')
  }

  /** Python's type name of a value, as it appears in exception messages. */
  function TypeName(j: Json): string {
    match j
    case JNull => "NoneType"
    case JBool(_) => "bool"
    case JInt(_) => "int"
    case JStr(_) => "str"
    case JArr(_) => "list"
    case JObj(_) => "dict"
  }

  // ---------------------------------------------------------------- dictionaries

  function FieldNames(fields: seq<(string, Json)>): (r: seq<string>)
    ensures |r| == |fields| && forall i :: 0 <= i < |fields| ==> r[i] == fields[i].0
  {
    seq(|fields|, i requires 0 <= i < |fields| => fields[i].0)
  }

  /** `key in d`. */
  predicate Has(fields: seq<(string, Json)>, key: string) {
    key in FieldNames(fields)
  }

  /** `d.get(key, default)`. A key given twice in the JSON text keeps its last value. */
  function Get(fields: seq<(string, Json)>, key: string, default: Json): (r: Json)
    ensures !Has(fields, key) ==> r == default
    ensures Has(fields, key) ==> exists i :: 0 <= i < |fields| && fields[i] == (key, r)
    decreases |fields|
  {
    if fields == [] then default
    else if fields[|fields| - 1].0 == key then fields[|fields| - 1].1
    else
      var p := fields[..|fields| - 1];
      assert FieldNames(fields) == FieldNames(p) + [fields[|fields| - 1].0];
      var r := Get(p, key, default);
      assert Has(p, key) ==> exists i :: 0 <= i < |p| && p[i] == (key, r);
      r
  }

  /** `d.keys()`: each key once, in order of first insertion. */
  function DictKeys(fields: seq<(string, Json)>): seq<string> {
    Tally.FirstSeen(FieldNames(fields))
  }

  /** `d.items()`. */
  function Items(fields: seq<(string, Json)>): seq<(string, Json)> {
    var ks := DictKeys(fields);
    seq(|ks|, i requires 0 <= i < |ks| => (ks[i], Get(fields, ks[i], JNull)))
  }

  // ---------------------------------------------------------------- helpers

  /** Index of the first element satisfying p, or |s| when there is none. */
  function FirstWhere<T>(s: seq<T>, p: T -> bool): (i: nat)
    ensures i <= |s|
    ensures forall j :: 0 <= j < i ==> !p(s[j])
    ensures i < |s| ==> p(s[i])
    decreases |s|
  {
    if s == [] then 0 else if p(s[0]) then 0 else 1 + FirstWhere(s[1..], p)
  }

  predicate NotDict(j: Json) { !j.JObj? }

  predicate AllDicts(recs: seq<Json>) {
    forall i :: 0 <= i < |recs| ==> recs[i].JObj?
  }

  /** Lists and dicts cannot be `Counter` keys. */
  predicate IsUnhashable(j: Json) { j.JArr? || j.JObj? }

  /** Append more output unless the report has already stopped. */
  function Then(a: Run, b: Run): Run {
    if a.err.Some? then a else Run(a.lines + b.lines, b.err)
  }

  /** `len(value)`, for the values that have one. */
  function Len(j: Json): Option<nat> {
    match j
    case JArr(items) => Some(|items|)
    case JStr(s) => Some(|s|)
    case JObj(fields) => Some(|DictKeys(fields)|)
    case _ => None
  }

  /** What `for biz in value` yields: a list's items, or a string's characters as
      one-character strings. */
  function Elements(j: Json): (r: seq<Json>)
    requires j.JArr? || j.JStr?
    ensures j.JArr? ==> r == j.items
    ensures j.JStr? ==> |r| == |j.s|
  {
    if j.JArr? then j.items else seq(|j.s|, i requires 0 <= i < |j.s| => JStr([j.s[i]]))
  }

  /** `[biz.get(key, default) for biz in recs]`. */
  function Column(recs: seq<Json>, key: string, default: Json): (r: seq<Json>)
    requires AllDicts(recs)
    ensures |r| == |recs|
    ensures forall i :: 0 <= i < |recs| ==> r[i] == Get(recs[i].fields, key, default)
  {
    seq(|recs|, i requires 0 <= i < |recs| => Get(recs[i].fields, key, default))
  }

  function EntryLines(sec: Section, es: seq<Tally.Entry<Json>>): (r: seq<Line>)
    ensures |r| == |es|
    ensures forall i :: 0 <= i < |es| ==> r[i] == Entry(sec, es[i].0, es[i].1)
  {
    seq(|es|, i requires 0 <= i < |es| => Entry(sec, es[i].0, es[i].1))
  }

  // ---------------------------------------------------------------- ID patterns

  const PROFESSIONAL := "Professional (prof-)"
  const NUMERIC := "Numeric"
  const OTHER := "Other"

  /** `str(value)` as far as the ID test needs it: for lists and dicts only the opening
      bracket is kept, which already decides the test. */
  function IdText(j: Json): string {
    match j
    case JNull => "None"
    case JBool(b) => if b then "True" else "False"
    case JInt(n) => Str.IntToString(n)
    case JStr(s) => s
    case JArr(_) => "["
    case JObj(_) => "{"
  }

  /** The bucket of one record: `str(biz.get('id', ''))` is tested for the "prof-" prefix
      first and for being all digits second. */
  function IdKind(fields: seq<(string, Json)>): string {
    Bucket(IdText(Get(fields, "id", JStr(""))))
  }

  function Bucket(t: string): string {
    if Str.StartsWith(t, "prof-") then PROFESSIONAL
    else if Str.AllDigits(t) then NUMERIC
    else OTHER
  }

  /** The three labels are told apart by their lengths. */
  lemma BucketOf(t: string)
    ensures Bucket(t) == PROFESSIONAL <==> Str.StartsWith(t, "prof-")
    ensures Bucket(t) == NUMERIC <==> Str.AllDigits(t)
    ensures Bucket(t) == OTHER <==> !Str.StartsWith(t, "prof-") && !Str.AllDigits(t)
  {
    assert |PROFESSIONAL| == 20 && |NUMERIC| == 7 && |OTHER| == 5;
    if Str.StartsWith(t, "prof-") {
      assert t[0] == 'p' && !Str.IsDigit(t[0]);
    }
  }

  function IdKinds(recs: seq<Json>): (r: seq<string>)
    requires AllDicts(recs)
    ensures |r| == |recs| && forall i :: 0 <= i < |recs| ==> r[i] == IdKind(recs[i].fields)
  {
    seq(|recs|, i requires 0 <= i < |recs| => IdKind(recs[i].fields))
  }

  /** The `id_types` Counter after the loop. */
  function IdTable(recs: seq<Json>): seq<Tally.Entry<string>>
    requires AllDicts(recs)
  {
    Tally.Counts(IdKinds(recs))
  }

  /** The counting loop: one `Counter` bump per record; a record that is not a dict
      stops it with the AttributeError of `biz.get`. */
  method CountIdTypes(recs: seq<Json>) returns (table: seq<Tally.Entry<string>>, err: Option<PyError>)
    ensures var k := FirstWhere(recs, NotDict);
      if k < |recs| then err == Some(NoAttribute(TypeName(recs[k]), "get"))
      else err == None && table == IdTable(recs)
  {
    table := [];
    var i := 0;
    while i < |recs|
      invariant 0 <= i <= |recs|
      invariant AllDicts(recs[..i]) && table == IdTable(recs[..i])
    {
      if !recs[i].JObj? {
        FirstNotDict(recs, i);
        err := Some(NoAttribute(TypeName(recs[i]), "get"));
        return;
      }
      IdTableStep(recs, i);
      table := Tally.Bump(table, IdKind(recs[i].fields));
      i := i + 1;
    }
    assert recs[..i] == recs;
    err := None;
  }

  /** One more dict record bumps its own bucket. */
  lemma IdTableStep(recs: seq<Json>, i: nat)
    requires i < |recs| && AllDicts(recs[..i]) && recs[i].JObj?
    ensures AllDicts(recs[..i + 1])
    ensures IdTable(recs[..i + 1]) == Tally.Bump(IdTable(recs[..i]), IdKind(recs[i].fields))
  {
    var prefix := recs[..i + 1];
    assert prefix[..i] == recs[..i];
    assert AllDicts(prefix) by {
      forall j | 0 <= j < |prefix| ensures prefix[j].JObj? {
        if j < i { assert prefix[j] == recs[..i][j]; }
      }
    }
    var kinds := IdKinds(prefix);
    assert |kinds| == i + 1 && kinds[i] == IdKind(recs[i].fields);
    assert kinds[..i] == IdKinds(recs[..i]);
    assert IdTable(prefix) == Tally.Bump(Tally.Counts(kinds[..i]), kinds[i]);
  }

  lemma FirstNotDict(recs: seq<Json>, i: nat)
    requires i < |recs| && AllDicts(recs[..i]) && !recs[i].JObj?
    ensures FirstWhere(recs, NotDict) == i
  {
    forall j | 0 <= j < i ensures !NotDict(recs[j]) {
      assert recs[..i][j] == recs[j];
    }
    FirstWhereIs(recs, NotDict, i);
  }

  lemma FirstWhereIs<T>(s: seq<T>, p: T -> bool, i: nat)
    requires i < |s| && p(s[i]) && forall j :: 0 <= j < i ==> !p(s[j])
    ensures FirstWhere(s, p) == i
  {
  }

  /** A record lands in exactly one bucket: "Professional (prof-)" exactly when its id
      text starts with "prof-", "Numeric" exactly when the text is all digits, "Other"
      otherwise; a record without an id is "Other". */
  lemma IdKindBuckets(fields: seq<(string, Json)>)
    ensures var t := IdText(Get(fields, "id", JStr("")));
      && (IdKind(fields) == PROFESSIONAL <==> Str.StartsWith(t, "prof-"))
      && (IdKind(fields) == NUMERIC <==> Str.AllDigits(t))
      && (IdKind(fields) == OTHER <==> !Str.StartsWith(t, "prof-") && !Str.AllDigits(t))
    ensures !Has(fields, "id") ==> IdKind(fields) == OTHER
  {
    BucketOf(IdText(Get(fields, "id", JStr(""))));
    if !Has(fields, "id") {
      BucketOf("");
    }
  }

  /** The three bucket counts add up to the number of records, each count is the number of
      records in that bucket, and no other label appears. */
  lemma IdTableCounts(recs: seq<Json>)
    requires AllDicts(recs)
    ensures Tally.Total(IdTable(recs)) == |recs|
    ensures forall k :: Tally.CountOf(IdTable(recs), k) == Tally.Occ(IdKinds(recs), k)
    ensures forall i :: 0 <= i < |IdTable(recs)| ==> IdTable(recs)[i].0 in {PROFESSIONAL, NUMERIC, OTHER}
  {
    Tally.CountsTotal(IdKinds(recs));
    forall k ensures Tally.CountOf(IdTable(recs), k) == Tally.Occ(IdKinds(recs), k) {
      Tally.CountsOcc(IdKinds(recs), k);
    }
    forall i | 0 <= i < |IdTable(recs)| ensures IdTable(recs)[i].0 in {PROFESSIONAL, NUMERIC, OTHER} {
      Tally.CountsEntry(IdKinds(recs), i);
      var kinds := IdKinds(recs);
      var j :| 0 <= j < |kinds| && kinds[j] == IdTable(recs)[i].0;
    }
  }

  function IdLines(table: seq<Tally.Entry<string>>): (r: seq<Line>)
    ensures |r| == |table|
    ensures forall i :: 0 <= i < |table| ==> r[i] == Entry(IdPatterns, JStr(table[i].0), table[i].1)
  {
    seq(|table|, i requires 0 <= i < |table| => Entry(IdPatterns, JStr(table[i].0), table[i].1))
  }

  // ---------------------------------------------------------------- tallies

  /** `Counter(values).most_common(10)`, or the TypeError of an unhashable value. */
  function TallyRun(sec: Section, values: seq<Json>): Run {
    var k := FirstWhere(values, IsUnhashable);
    if k < |values| then Run([], Some(Unhashable(TypeName(values[k]))))
    else Run(EntryLines(sec, Tally.Top(Tally.Counts(values), 10)), None)
  }

  /** The industry (or neighbourhood) table: its counts add up to the number of records, a
      record without the field counts under "Unknown", at most 10 entries are printed in
      non-increasing count, each with its number of occurrences, and no category left out
      has a larger count than one printed. */
  lemma TallyProps(recs: seq<Json>, key: string)
    requires AllDicts(recs)
    ensures var vs := Column(recs, key, JStr("Unknown"));
      && Tally.Total(Tally.Counts(vs)) == |recs|
      && (forall i :: 0 <= i < |recs| && !Has(recs[i].fields, key) ==> vs[i] == JStr("Unknown"))
      && var top := Tally.Top(Tally.Counts(vs), 10);
      && |top| <= 10
      && Ranking.SortedDesc(top, Tally.CountKey)
      && (forall i :: 0 <= i < |top| ==> top[i].1 == Tally.Occ(vs, top[i].0))
      && (forall e :: e in Tally.Counts(vs) && e !in top ==> forall d :: d in top ==> d.1 >= e.1)
  {
    var vs := Column(recs, key, JStr("Unknown"));
    var c := Tally.Counts(vs);
    Tally.CountsTotal(vs);
    Tally.TopProps(c, 10);
    var top := Tally.Top(c, 10);
    forall i | 0 <= i < |top| ensures top[i].1 == Tally.Occ(vs, top[i].0) {
      assert top[i] in multiset(c);
      var j :| 0 <= j < |c| && c[j] == top[i];
      Tally.CountsEntry(vs, j);
    }
  }

  // ---------------------------------------------------------------- duplicates

  /** `{name: count for name, count in table.items() if count > 1}`. */
  function Repeated(table: seq<Tally.Entry<Json>>): (r: seq<Tally.Entry<Json>>)
    ensures forall i :: 0 <= i < |r| ==> r[i] in table && r[i].1 > 1
    decreases |table|
  {
    if table == [] then []
    else (if table[0].1 > 1 then [table[0]] else []) + Repeated(table[1..])
  }

  lemma {:induction false} RepeatedKeeps(table: seq<Tally.Entry<Json>>, e: Tally.Entry<Json>)
    requires e in table && e.1 > 1
    ensures e in Repeated(table)
    decreases |table|
  {
    if table[0] != e {
      RepeatedKeeps(table[1..], e);
    }
  }

  predicate Multiple(e: Tally.Entry<Json>) { e.1 > 1 }

  /** The comprehension keeps exactly the entries counted more than once, in table order. */
  lemma {:induction false} RepeatedOrder(table: seq<Tally.Entry<Json>>)
    ensures Repeated(table) == Seqs.Where(table, Multiple)
    ensures Dedupe.Subseq(Repeated(table), table)
    decreases |table|
  {
    if table != [] { RepeatedOrder(table[1..]); }
    Seqs.WhereOrder(table, Multiple);
  }

  function DuplicateRun(names: seq<Json>): Run {
    var k := FirstWhere(names, IsUnhashable);
    if k < |names| then Run([], Some(Unhashable(TypeName(names[k]))))
    else
      var d := Repeated(Tally.Counts(names));
      if d == [] then Run([Heading("    No duplicate names found")], None)
      else Run([DuplicateTotal(|d|)] + EntryLines(Duplicates, Ranking.Take(d, 10)), None)
  }

  /** A name is reported as a duplicate exactly when it occurs more than once (a missing
      name counts as ""), with its number of occurrences; at most 10 are listed. */
  lemma DuplicateProps(recs: seq<Json>)
    requires AllDicts(recs)
    ensures var names := Column(recs, "name", JStr(""));
      var d := Repeated(Tally.Counts(names));
      && (forall n :: n in Tally.Keys(d) <==> Tally.Occ(names, n) > 1)
      && (forall i :: 0 <= i < |d| ==> d[i].1 == Tally.Occ(names, d[i].0))
      && (forall i :: 0 <= i < |recs| && !Has(recs[i].fields, "name") ==> names[i] == JStr(""))
      && |Ranking.Take(d, 10)| <= 10
    ensures var names := Column(recs, "name", JStr(""));
      && Dedupe.Subseq(Repeated(Tally.Counts(names)), Tally.Counts(names))
      && Tally.Keys(Tally.Counts(names)) == Tally.FirstSeen(names)
  {
    var names := Column(recs, "name", JStr(""));
    var c := Tally.Counts(names);
    var d := Repeated(c);
    assert Dedupe.Subseq(d, c) by { RepeatedOrder(c); }
    Tally.CountsKeys(names);
    Tally.FirstSeenProps(names);
    forall i | 0 <= i < |d| ensures d[i].1 == Tally.Occ(names, d[i].0) {
      var j :| 0 <= j < |c| && c[j] == d[i];
      Tally.CountsEntry(names, j);
    }
    forall n ensures n in Tally.Keys(d) <==> Tally.Occ(names, n) > 1 {
      Tally.CountsOcc(names, n);
      if n in Tally.Keys(d) {
        var i :| 0 <= i < |d| && d[i].0 == n;
      }
      if Tally.Occ(names, n) > 1 {
        var j := CountOfIndex(c, n);
        RepeatedKeeps(c, c[j]);
        var i :| 0 <= i < |d| && d[i] == c[j];
        assert Tally.Keys(d)[i] == n;
      }
    }
  }

  /** A key with a non-zero recorded count has an entry. */
  lemma {:induction false} CountOfIndex<K>(c: seq<Tally.Entry<K>>, k: K) returns (j: nat)
    requires Tally.CountOf(c, k) > 0
    ensures j < |c| && c[j].0 == k && c[j].1 == Tally.CountOf(c, k)
    decreases |c|
  {
    if c[0].0 == k { j := 0; }
    else {
      var j' := CountOfIndex(c[1..], k);
      j := j' + 1;
    }
  }

  // ---------------------------------------------------------------- ages

  /** Kinds of hashable keys that Python can order among themselves: None, numbers
      (bool counts as a number) and strings. */
  function Rank(j: Json): nat {
    match j
    case JNull => 0
    case JBool(_) => 1
    case JInt(_) => 1
    case JStr(_) => 2
    case JArr(_) => 3
    case JObj(_) => 4
  }

  function NumValue(j: Json): int
    requires j.JBool? || j.JInt?
  {
    if j.JBool? then (if j.b then 1 else 0) else j.i
  }

  /** Python's `<=` on keys of one kind. Keys of different kinds are ordered by kind only so
      that the relation is total; the report never sorts such keys (it raises first). */
  predicate KeyLe(x: Json, y: Json) {
    Rank(x) < Rank(y)
    || (Rank(x) == Rank(y)
        && match x
           case JBool(_) => NumValue(x) <= NumValue(y)
           case JInt(_) => NumValue(x) <= NumValue(y)
           case JStr(a) => Str.LessEq(a, y.s)
           case _ => true)
  }

  predicate AgeLe(a: Tally.Entry<Json>, b: Tally.Entry<Json>) { KeyLe(a.0, b.0) }

  /** `sorted` of the table compares keys pairwise; it succeeds when at most one key is
      present or all keys are of one kind, and raises otherwise. */
  predicate Orderable(keys: seq<Json>) {
    |keys| <= 1
    || (forall i :: 0 <= i < |keys| ==> Rank(keys[i]) == 1)
    || (forall i :: 0 <= i < |keys| ==> Rank(keys[i]) == 2)
  }

  lemma AgeLeTotalPreorder()
    ensures Ranking.TotalPreorder(AgeLe)
  {
    forall a: Tally.Entry<Json>, b: Tally.Entry<Json> ensures AgeLe(a, b) || AgeLe(b, a) {
      if a.0.JStr? && b.0.JStr? { Str.LessEqTotal(a.0.s, b.0.s); }
    }
    forall a: Tally.Entry<Json>, b: Tally.Entry<Json>, c: Tally.Entry<Json> | AgeLe(a, b) && AgeLe(b, c)
      ensures AgeLe(a, c)
    {
      if a.0.JStr? && b.0.JStr? && c.0.JStr? { Str.LessEqTrans(a.0.s, b.0.s, c.0.s); }
    }
  }

  function AgeRun(ages: seq<Json>): Run {
    var k := FirstWhere(ages, IsUnhashable);
    if k < |ages| then Run([], Some(Unhashable(TypeName(ages[k]))))
    else
      var table := Tally.Counts(ages);
      if !Orderable(Tally.Keys(table)) then Run([], Some(Unorderable))
      else Run(EntryLines(Ages, Ranking.Take(Ranking.SortBy(table, AgeLe), 10)), None)
  }

  /** Age buckets are printed in ascending key order, at most 10 of them, each with its
      number of records; mixing numbers with strings (such as the "Unknown" default)
      raises the comparison error instead. */
  lemma AgeProps(ages: seq<Json>)
    ensures var r := AgeRun(ages);
      && (r.err.None? ==>
            var es := Ranking.Take(Ranking.SortBy(Tally.Counts(ages), AgeLe), 10);
            && r.lines == EntryLines(Ages, es)
            && |es| <= 10
            && Ranking.SortedBy(es, AgeLe)
            && forall i :: 0 <= i < |es| ==> es[i].1 == Tally.Occ(ages, es[i].0))
      && ((exists i, j :: 0 <= i < |ages| && 0 <= j < |ages| && Rank(ages[i]) == 1 && Rank(ages[j]) == 2)
            ==> r.err.Some?)
  {
    AgeSorted(ages);
    if exists i, j :: 0 <= i < |ages| && 0 <= j < |ages| && Rank(ages[i]) == 1 && Rank(ages[j]) == 2 {
      var i, j :| 0 <= i < |ages| && 0 <= j < |ages| && Rank(ages[i]) == 1 && Rank(ages[j]) == 2;
      AgeMixed(ages, i, j);
    }
  }

  lemma AgeSorted(ages: seq<Json>)
    ensures var es := Ranking.Take(Ranking.SortBy(Tally.Counts(ages), AgeLe), 10);
      && |es| <= 10
      && Ranking.SortedBy(es, AgeLe)
      && forall i :: 0 <= i < |es| ==> es[i].1 == Tally.Occ(ages, es[i].0)
  {
    var table := Tally.Counts(ages);
    AgeLeTotalPreorder();
    Ranking.SortBySorted(table, AgeLe);
    var sorted := Ranking.SortBy(table, AgeLe);
    var es := Ranking.Take(sorted, 10);
    forall i | 0 <= i < |es| ensures es[i].1 == Tally.Occ(ages, es[i].0) {
      assert es[i] == sorted[i];
      assert sorted[i] in multiset(table);
      var j :| 0 <= j < |table| && table[j] == es[i];
      Tally.CountsEntry(ages, j);
    }
  }

  lemma AgeMixed(ages: seq<Json>, i: nat, j: nat)
    requires i < |ages| && j < |ages| && Rank(ages[i]) == 1 && Rank(ages[j]) == 2
    ensures AgeRun(ages).err.Some?
  {
    var table := Tally.Counts(ages);
    Tally.CountsKeys(ages);
    Tally.FirstSeenProps(ages);
    var keys := Tally.Keys(table);
    assert ages[i] in keys && ages[j] in keys;
    var a :| 0 <= a < |keys| && keys[a] == ages[i];
    var b :| 0 <= b < |keys| && keys[b] == ages[j];
    assert a != b;
  }

  // ---------------------------------------------------------------- sections

  /** Does any record have the key, whatever its value (`any(key in biz ...)`). */
  function AnyHas(recs: seq<Json>, key: string): (r: bool)
    requires AllDicts(recs)
    ensures r <==> exists i :: 0 <= i < |recs| && Has(recs[i].fields, key)
    decreases |recs|
  {
    if recs == [] then false
    else
      var rest := AnyHas(recs[1..], key);
      assert forall i :: 1 <= i < |recs| ==> recs[i] == recs[1..][i - 1];
      Has(recs[0].fields, key) || rest
  }

  function Preview(recs: seq<Json>, number: nat): Run
    decreases |recs|
  {
    if recs == [] then Run([], None)
    else if !recs[0].JObj? then Run([], Some(NoAttribute(TypeName(recs[0]), "get")))
    else
      var f := recs[0].fields;
      Then(Run([Sample(number, Get(f, "id", JStr("N/A")), Get(f, "name", JStr("N/A")))], None),
           Preview(recs[1..], number + 1))
  }

  function MetaRun(data: seq<(string, Json)>): Run {
    if !Has(data, "metadata") then Run([], None)
    else
      var meta := Get(data, "metadata", JNull);
      var h := [Heading("\nMETADATA:")];
      if !meta.JObj? then Run(h, Some(NoAttribute(TypeName(meta), "get")))
      else
        var d := h + [Field("  Description", Get(meta.fields, "description", JStr("N/A")))];
        if !Has(meta.fields, "dataQuality") then Run(d, None)
        else
          var q := Get(meta.fields, "dataQuality", JNull);
          var d' := d + [Heading("  Data Quality Flags:")];
          if !q.JObj? then Run(d', Some(NoAttribute(TypeName(q), "items")))
          else
            var items := Items(q.fields);
            Run(d' + seq(|items|, i requires 0 <= i < |items| => QualityFlag(items[i].0, items[i].1)), None)
  }

  /** The key list and the address dump of the first record. */
  function FirstRecordRun(first: seq<(string, Json)>): Run {
    var keys := DictKeys(first);
    var shown := Ranking.Take(keys, 15);
    var h := [Heading("\n  Structure of first business object:"), KeyCount(|keys|)]
             + seq(|shown|, i requires 0 <= i < |shown| => KeyName(shown[i]));
    var addr := Get(first, "address", JNull);
    if !Has(first, "address") then Run(h, None)
    else if !addr.JObj? then Run(h, Some(NoAttribute(TypeName(addr), "keys")))
    else
      var ks := DictKeys(addr.fields);
      Run(h + [Heading("\n    Address structure:")]
            + seq(|ks|, i requires 0 <= i < |ks| => AddressField(ks[i], Get(addr.fields, ks[i], JNull))), None)
  }

  /** The dump of the first record, the embedding check and the age table. */
  function StructureRun(recs: seq<Json>): Run
    requires AllDicts(recs) && |recs| > 0
  {
    Then(FirstRecordRun(recs[0].fields),
    Then(Run([HasEmbedding(AnyHas(recs, "embedding")), Heading("\n  Business Age Distribution:")], None),
         AgeRun(Column(recs, "businessAge", JStr("Unknown")))))
  }

  /** Everything from the ID loop to the end of the businesses section. */
  function RecordsRun(recs: seq<Json>): Run {
    var h := [Heading("\n  ID Patterns:")];
    var k := FirstWhere(recs, NotDict);
    if k < |recs| then Run(h, Some(NoAttribute(TypeName(recs[k]), "get")))
    else Then(Run(h + IdLines(IdTable(recs)) + [Heading("\n  Industries (top 10):")], None), TalliesRun(recs))
  }

  function TalliesRun(recs: seq<Json>): Run
    requires AllDicts(recs)
  {
    Then(TallyRun(Industries, Column(recs, "industry", JStr("Unknown"))),
    Then(Run([Heading("\n  Neighborhoods (top 10):")], None),
    Then(TallyRun(Neighborhoods, Column(recs, "neighborhood", JStr("Unknown"))),
         NamesRun(recs))))
  }

  function NamesRun(recs: seq<Json>): Run
    requires AllDicts(recs)
  {
    Then(Run([Heading("\n  Duplicate Check:")], None),
    Then(DuplicateRun(Column(recs, "name", JStr(""))),
         if |recs| > 0 then StructureRun(recs) else Run([], None)))
  }

  function BusinessesRun(data: seq<(string, Json)>): Run {
    if !Has(data, "businesses") then Run([], None)
    else
      var b := Get(data, "businesses", JNull);
      var h := [Heading("\nBUSINESSES ARRAY:")];
      match Len(b)
      case None => Run(h, Some(NoLen(TypeName(b))))
      case Some(n) =>
        var h' := h + [ArrayCount(n), Heading("\n  First 5 businesses:")];
        if b.JObj? then Run(h', Some(BadSliceKey))
        else
          var recs := Elements(b);
          Then(Run(h', None), Then(Preview(Ranking.Take(recs, 5), 1), RecordsRun(recs)))
  }

  /** The footer. Without a "businesses" key the name `businesses` was never bound. */
  function SummaryRun(data: seq<(string, Json)>): Run {
    var h := [Heading("\n" + Rule()), Heading("SUMMARY:"), Claims(Get(data, "totalBusinesses", JStr("?")))];
    if !Has(data, "businesses") then Run(h, Some(Unbound("businesses")))
    else
      var b := Get(data, "businesses", JNull);
      match Len(b)
      case None => Run(h, Some(NoLen(TypeName(b))))
      case Some(n) =>
        var h' := h + [Contains(n)];
        if n == 0 then
          Run(h' + [IsDemo(JStr("Unknown")), DataVersion(JStr("Unknown")), Heading(Rule())], None)
        else if b.JObj? then Run(h', Some(BadSliceKey))
        else
          var first := Elements(b)[0];
          if !first.JObj? then Run(h', Some(NoAttribute(TypeName(first), "get")))
          else
            Run(h' + [IsDemo(Get(first.fields, "isDemo", JBool(false))),
                      DataVersion(Get(first.fields, "dataVersion", JStr("Unknown"))), Heading(Rule())], None)
  }

  /** The body of the `try` once the JSON is parsed. */
  function Body(filename: string, data: Json): Run {
    if !data.JObj? then Run(Banner(filename), Some(NoAttribute(TypeName(data), "get")))
    else
      var d := data.fields;
      Then(Run(Banner(filename) + Info(d), None), Then(MetaRun(d), Then(BusinessesRun(d), SummaryRun(d))))
  }

  function Banner(filename: string): seq<Line> {
    [Heading(Rule()), Heading("IMPROVED DEMO DATA ANALYSIS"), Heading(Rule()), FileName(filename)]
  }

  function Info(d: seq<(string, Json)>): seq<Line> {
    [Field("Version", Get(d, "version", JStr("unknown"))),
     Field("Generated", Get(d, "generated", JStr("unknown"))),
     Field("Total Businesses (claimed)", Get(d, "totalBusinesses", JStr("unknown")))]
  }

  /** The whole printed report, including the line printed by whichever `except` ran. */
  function Analyze(filename: string, input: FileInput): seq<Line> {
    match input
    case NotFound => [FileNotFound(filename)]
    case BadJson(diag) => [InvalidJson(diag)]
    case Unreadable(reason) => [Failure(OsError(reason))]
    case Parsed(data) =>
      Finish(Body(filename, data))
  }

  /** The printed lines, followed by the generic handler's line when something was raised. */
  function Finish(r: Run): seq<Line> {
    r.lines + (if r.err.Some? then [Failure(r.err.value)] else [])
  }

  // ---------------------------------------------------------------- report-level lemmas

  predicate IsError(l: Line) { l.FileNotFound? || l.InvalidJson? || l.Failure? }

  /** Lines that only the summary prints as its last two. */
  predicate Plain(l: Line) { !IsError(l) && !l.DataVersion? }

  predicate AllPlain(ls: seq<Line>) { forall i :: 0 <= i < |ls| ==> Plain(ls[i]) }

  lemma ThenPlain(a: Run, b: Run)
    requires AllPlain(a.lines) && AllPlain(b.lines)
    ensures AllPlain(Then(a, b).lines)
  {
  }

  lemma {:induction false} PreviewPlain(recs: seq<Json>, number: nat)
    ensures AllPlain(Preview(recs, number).lines)
    decreases |recs|
  {
    if recs != [] && recs[0].JObj? {
      PreviewPlain(recs[1..], number + 1);
    }
  }

  lemma FirstRecordPlain(first: seq<(string, Json)>)
    ensures AllPlain(FirstRecordRun(first).lines)
  {
    var keys := DictKeys(first);
    var shown := Ranking.Take(keys, 15);
    var names := seq(|shown|, i requires 0 <= i < |shown| => KeyName(shown[i]));
    assert AllPlain(names);
    var addr := Get(first, "address", JNull);
    if Has(first, "address") && addr.JObj? {
      var ks := DictKeys(addr.fields);
      var fs := seq(|ks|, i requires 0 <= i < |ks| => AddressField(ks[i], Get(addr.fields, ks[i], JNull)));
      assert AllPlain(fs);
    }
  }

  lemma StructurePlain(recs: seq<Json>)
    requires AllDicts(recs) && |recs| > 0
    ensures AllPlain(StructureRun(recs).lines)
  {
    var f := FirstRecordRun(recs[0].fields);
    var m := Run([HasEmbedding(AnyHas(recs, "embedding")), Heading("\n  Business Age Distribution:")], None);
    var g := AgeRun(Column(recs, "businessAge", JStr("Unknown")));
    FirstRecordPlain(recs[0].fields);
    AgeRunPlain(Column(recs, "businessAge", JStr("Unknown")));
    ThenPlain(m, g);
    ThenPlain(f, Then(m, g));
  }

  lemma TallyPlain(sec: Section, vs: seq<Json>)
    ensures AllPlain(TallyRun(sec, vs).lines)
  {
  }

  lemma DuplicatePlain(names: seq<Json>)
    ensures AllPlain(DuplicateRun(names).lines)
  {
  }

  lemma AgeRunPlain(ages: seq<Json>)
    ensures AllPlain(AgeRun(ages).lines)
  {
  }

  lemma NamesPlain(recs: seq<Json>)
    requires AllDicts(recs)
    ensures AllPlain(NamesRun(recs).lines)
  {
    var d := DuplicateRun(Column(recs, "name", JStr("")));
    var t := if |recs| > 0 then StructureRun(recs) else Run([], None);
    DuplicatePlain(Column(recs, "name", JStr("")));
    if |recs| > 0 { StructurePlain(recs); }
    HeadingPlain("\n  Duplicate Check:");
    ThenPlain3(Run([Heading("\n  Duplicate Check:")], None), d, t);
  }

  lemma ThenPlain3(a: Run, b: Run, c: Run)
    requires AllPlain(a.lines) && AllPlain(b.lines) && AllPlain(c.lines)
    ensures AllPlain(Then(a, Then(b, c)).lines)
  {
    ThenPlain(b, c);
    ThenPlain(a, Then(b, c));
  }

  lemma ThenPlain4(a: Run, b: Run, c: Run, d: Run)
    requires AllPlain(a.lines) && AllPlain(b.lines) && AllPlain(c.lines) && AllPlain(d.lines)
    ensures AllPlain(Then(a, Then(b, Then(c, d))).lines)
  {
    ThenPlain(c, d);
    ThenPlain(b, Then(c, d));
    ThenPlain(a, Then(b, Then(c, d)));
  }

  lemma HeadingPlain(text: string)
    ensures AllPlain(Run([Heading(text)], None).lines)
  {
  }

  lemma TalliesPlain(recs: seq<Json>)
    requires AllDicts(recs)
    ensures AllPlain(TalliesRun(recs).lines)
  {
    HeadingPlain("\n  Neighborhoods (top 10):");
    NamesPlain(recs);
    TallyPlain(Industries, Column(recs, "industry", JStr("Unknown")));
    TallyPlain(Neighborhoods, Column(recs, "neighborhood", JStr("Unknown")));
    var h := Run([Heading("\n  Neighborhoods (top 10):")], None);
    ThenPlain4(TallyRun(Industries, Column(recs, "industry", JStr("Unknown"))), h,
      TallyRun(Neighborhoods, Column(recs, "neighborhood", JStr("Unknown"))),
      NamesRun(recs));
  }

  lemma RecordsPlain(recs: seq<Json>)
    ensures AllPlain(RecordsRun(recs).lines)
  {
    if FirstWhere(recs, NotDict) == |recs| {
      assert AllDicts(recs) by {
        forall j | 0 <= j < |recs| ensures recs[j].JObj? {
          assert !NotDict(recs[j]);
        }
      }
      var ids := IdLines(IdTable(recs));
      assert AllPlain(ids);
      var h := [Heading("\n  ID Patterns:")] + ids + [Heading("\n  Industries (top 10):")];
      assert AllPlain(h) by {
        forall i | 0 <= i < |h| ensures Plain(h[i]) {
          if 0 < i < |h| - 1 { assert h[i] == ids[i - 1]; }
        }
      }
      TalliesPlain(recs);
      ThenPlain(Run(h, None), TalliesRun(recs));
    }
  }

  /** The summary's "Data version" line is second to last exactly when nothing was raised;
      every other line is ordinary output. */
  predicate Shaped(r: Run) {
    && (r.err.None? <==> (|r.lines| >= 2 && r.lines[|r.lines| - 2].DataVersion?))
    && (forall i :: 0 <= i < |r.lines| - 2 ==> Plain(r.lines[i]))
    && (r.err.Some? ==> AllPlain(r.lines))
    && (forall i :: 0 <= i < |r.lines| ==> !IsError(r.lines[i]))
  }

  lemma ThenShaped(a: Run, b: Run)
    requires AllPlain(a.lines) && Shaped(b)
    ensures Shaped(Then(a, b))
  {
    if a.err.None? {
      var l := a.lines + b.lines;
      forall i | 0 <= i < |l| - 2 ensures Plain(l[i]) {
        if i >= |a.lines| { assert l[i] == b.lines[i - |a.lines|]; }
      }
      if b.err.None? {
        assert l[|l| - 2] == b.lines[|b.lines| - 2];
      } else {
        assert AllPlain(l);
      }
    }
  }

  /** A run that stops with an error after plain lines. */
  lemma StoppedShaped(h: seq<Line>, e: PyError)
    requires AllPlain(h)
    ensures Shaped(Run(h, Some(e)))
  {
  }

  /** The summary's closing lines after plain lines. */
  lemma ClosedShaped(h: seq<Line>, demo: Json, version: Json)
    requires AllPlain(h)
    ensures Shaped(Run(h + [IsDemo(demo), DataVersion(version), Heading(Rule())], None))
  {
    var l := h + [IsDemo(demo), DataVersion(version), Heading(Rule())];
    assert l[|l| - 2] == DataVersion(version);
    forall i | 0 <= i < |l| ensures !IsError(l[i]) {
      if i < |h| { assert l[i] == h[i]; }
    }
    forall i | 0 <= i < |l| - 2 ensures Plain(l[i]) {
      if i < |h| { assert l[i] == h[i]; }
    }
  }

  lemma SummaryShaped(d: seq<(string, Json)>)
    ensures Shaped(SummaryRun(d))
  {
    var h := [Heading("\n" + Rule()), Heading("SUMMARY:"), Claims(Get(d, "totalBusinesses", JStr("?")))];
    assert AllPlain(h);
    if !Has(d, "businesses") {
      StoppedShaped(h, Unbound("businesses"));
    } else {
      var b := Get(d, "businesses", JNull);
      match Len(b)
      case None => StoppedShaped(h, NoLen(TypeName(b)));
      case Some(n) =>
        var h' := h + [Contains(n)];
        assert AllPlain(h');
        if n == 0 {
          ClosedShaped(h', JStr("Unknown"), JStr("Unknown"));
        } else if b.JObj? {
          StoppedShaped(h', BadSliceKey);
        } else {
          var first := Elements(b)[0];
          if !first.JObj? {
            StoppedShaped(h', NoAttribute(TypeName(first), "get"));
          } else {
            ClosedShaped(h', Get(first.fields, "isDemo", JBool(false)), Get(first.fields, "dataVersion", JStr("Unknown")));
          }
        }
    }
  }

  lemma ArrayHeadPlain(n: nat)
    ensures AllPlain([Heading("\nBUSINESSES ARRAY:"), ArrayCount(n), Heading("\n  First 5 businesses:")])
  {
  }

  lemma BusinessesPlain(d: seq<(string, Json)>)
    ensures AllPlain(BusinessesRun(d).lines)
  {
    if Has(d, "businesses") {
      var b := Get(d, "businesses", JNull);
      if Len(b).Some? && !b.JObj? {
        var recs := Elements(b);
        var h := [Heading("\nBUSINESSES ARRAY:"), ArrayCount(Len(b).value), Heading("\n  First 5 businesses:")];
        ArrayHeadPlain(Len(b).value);
        PreviewPlain(Ranking.Take(recs, 5), 1);
        RecordsPlain(recs);
        ThenPlain(Preview(Ranking.Take(recs, 5), 1), RecordsRun(recs));
        ThenPlain(Run(h, None), Then(Preview(Ranking.Take(recs, 5), 1), RecordsRun(recs)));
      }
    }
  }

  lemma BodyShaped(filename: string, data: Json)
    ensures Shaped(Body(filename, data))
  {
    if data.JObj? {
      var d := data.fields;
      var info := Banner(filename) + Info(d);
      assert AllPlain(info);
      MetaPlain(d);
      BusinessesPlain(d);
      SummaryShaped(d);
      ThenShaped(BusinessesRun(d), SummaryRun(d));
      ThenShaped(MetaRun(d), Then(BusinessesRun(d), SummaryRun(d)));
      ThenShaped(Run(info, None), Then(MetaRun(d), Then(BusinessesRun(d), SummaryRun(d))));
    }
  }

  lemma MetaPlain(d: seq<(string, Json)>)
    ensures AllPlain(MetaRun(d).lines)
  {
  }

  /** Every report line is either ordinary output or one error line at the very end; the
      summary's last value line is printed exactly when no exception was raised. */
  lemma ReportShape(filename: string, input: FileInput)
    ensures var out := Analyze(filename, input);
      |out| >= 1
      && (forall i :: 0 <= i < |out| - 1 ==> !IsError(out[i]))
      && (IsError(out[|out| - 1]) <==> !exists i :: 0 <= i < |out| && out[i].DataVersion?)
  {
    if input.Parsed? {
      BodyShaped(filename, input.data);
      FinishShape(Body(filename, input.data));
    }
  }

  lemma FinishShape(r: Run)
    requires Shaped(r)
    ensures var out := Finish(r);
      |out| >= 1
      && (forall i :: 0 <= i < |out| - 1 ==> !IsError(out[i]))
      && (IsError(out[|out| - 1]) <==> !exists i :: 0 <= i < |out| && out[i].DataVersion?)
  {
    var out := Finish(r);
    if r.err.None? {
      assert out == r.lines;
      assert out[|out| - 2].DataVersion?;
    } else {
      assert out == r.lines + [Failure(r.err.value)];
      forall i | 0 <= i < |out| ensures !out[i].DataVersion? {
        if i < |r.lines| { assert Plain(r.lines[i]); }
      }
    }
  }

  /** A missing file and malformed JSON each produce exactly one line, the error line. */
  lemma FileErrors(filename: string, diag: string)
    ensures Analyze(filename, NotFound) == [FileNotFound(filename)]
    ensures Analyze(filename, BadJson(diag)) == [InvalidJson(diag)]
  {
  }

  /** Without a "businesses" key the report reaches the footer, prints the claimed total
      and then fails on the unbound name. */
  lemma NoBusinessesKey(filename: string, d: seq<(string, Json)>)
    requires !Has(d, "businesses") && MetaRun(d).err.None?
    ensures var out := Analyze(filename, Parsed(JObj(d)));
      |out| >= 2
      && out[|out| - 1] == Failure(Unbound("businesses"))
      && out[|out| - 2] == Claims(Get(d, "totalBusinesses", JStr("?")))
  {
  }

  /** The footer's demo flag: the first record's "isDemo" value, False when it has none,
      and "Unknown" only for an empty array. */
  lemma SummaryIsDemo(d: seq<(string, Json)>, items: seq<Json>)
    requires Has(d, "businesses") && Get(d, "businesses", JNull) == JArr(items)
    ensures items == [] ==> IsDemo(JStr("Unknown")) in SummaryRun(d).lines
    ensures items != [] && items[0].JObj? && !Has(items[0].fields, "isDemo") ==>
              IsDemo(JBool(false)) in SummaryRun(d).lines
  {
    var h := [Heading("\n" + Rule()), Heading("SUMMARY:"), Claims(Get(d, "totalBusinesses", JStr("?")))];
    if items == [] {
      assert SummaryRun(d).lines[4] == IsDemo(JStr("Unknown"));
    } else if items[0].JObj? && !Has(items[0].fields, "isDemo") {
      assert SummaryRun(d).lines[4] == IsDemo(JBool(false));
    }
  }
}
