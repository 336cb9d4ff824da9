/** The CSV export of export-companies-to-csv.mjs: a header made of the first record's
    keys, one row per company with every field quoted as section 2 of RFC 4180 describes
    (rules 6 and 7), and the industry tally printed after the export. */
module CsvExport {
  import opened Wrappers
  import Str
  import Js
  import Tally
  import Ranking
  import Seqs

  type Company = seq<(string, Js.Value)>

  /** The text of a cell before quoting: null and undefined are empty. */
  function CellText(v: Js.Value): string {
    if Js.IsNullish(v) then "" else Js.ToString(v)
  }

  /** A character that forces quoting. */
  predicate Special(c: char) { c == ',' || c == '\n' || c == '"' }

  predicate NeedsQuotes(s: string) { exists i :: 0 <= i < |s| && Special(s[i]) }

  /** A text containing ',', '\n' or '"' is wrapped in double quotes with every '"'
      doubled; any other text is kept as it is. */
  function Quote(s: string): string {
    if Str.Contains(s, ",") || Str.Contains(s, "\n") || Str.Contains(s, "\"") then
      "\"" + Str.ReplaceChar(s, '"', "\"\"") + "\""
    else s
  }

  /** One cell of a data row. */
  function Field(v: Js.Value): string {
    if Js.IsNullish(v) then "" else Quote(Js.ToString(v))
  }

  /** The cells of one company's row, column by column. */
  function Cells(company: Company, columns: seq<string>): (r: seq<string>)
    ensures |r| == |columns|
  {
    seq(|columns|, i requires 0 <= i < |columns| => Field(Js.FieldValue(company, columns[i])))
  }

  function Header(columns: seq<string>): string {
    Str.Join(columns, ",") + "\n"
  }

  function Row(company: Company, columns: seq<string>): string {
    Str.Join(Cells(company, columns), ",") + "\n"
  }

  function Rows(companies: seq<Company>, columns: seq<string>): string
    decreases |companies|
  {
    if companies == [] then "" else Rows(companies[..|companies| - 1], columns) + Row(companies[|companies| - 1], columns)
  }

  /** `exportToCSV` from the fetched list to the file text; `None` when there is nothing to
      export. The columns are the keys of the first company. */
  method ExportCsv(companies: seq<Company>) returns (csv: Option<string>)
    ensures companies == [] <==> csv.None?
    ensures companies != [] ==>
      var columns := Js.Keys(companies[0]);
      csv == Some(Header(columns) + Rows(companies, columns))
  {
    if |companies| == 0 {
      return None;
    }
    var columns := Js.Keys(companies[0]);
    var text := Str.Join(columns, ",") + "\n";
    var i := 0;
    while i < |companies|
      invariant 0 <= i <= |companies|
      invariant text == Header(columns) + Rows(companies[..i], columns)
    {
      var row := Cells(companies[i], columns);
      RowsSnoc(companies, columns, i);
      Seqs.AppendAssoc(Header(columns), Rows(companies[..i], columns), Row(companies[i], columns));
      text := text + (Str.Join(row, ",") + "\n");
      i := i + 1;
    }
    assert companies[..i] == companies;
    csv := Some(text);
  }

  lemma RowsSnoc(companies: seq<Company>, columns: seq<string>, i: nat)
    requires i < |companies|
    ensures Rows(companies[..i + 1], columns) == Rows(companies[..i], columns) + Row(companies[i], columns)
  {
    assert companies[..i + 1][..i] == companies[..i];
  }

  // ------------------------------------------------------------------ reading back

  /** The rest of a quoted field after its opening quote: `""` stands for one quote and a
      lone quote closes the field. */
  function ReadQuoted(t: string): (r: Option<(string, string)>)
    ensures r.Some? ==> |r.value.1| < |t|
    decreases |t|
  {
    if t == [] then None
    else if t[0] == '"' then
      if |t| > 1 && t[1] == '"' then
        match ReadQuoted(t[2..]) case None => None case Some((f, rest)) => Some(("\"" + f, rest))
      else Some(("", t[1..]))
    else
      match ReadQuoted(t[1..]) case None => None case Some((f, rest)) => Some(([t[0]] + f, rest))
  }

  /** Index of the first ',' or '\n' at or after i, or the length. */
  function FieldEnd(t: string, i: nat): (j: nat)
    requires i <= |t|
    ensures i <= j <= |t| && (j == |t| || t[j] == ',' || t[j] == '\n')
    ensures forall k :: i <= k < j ==> t[k] != ',' && t[k] != '\n'
    decreases |t| - i
  {
    if i == |t| || t[i] == ',' || t[i] == '\n' then i else FieldEnd(t, i + 1)
  }

  /** One field: quoted when it starts with '"', otherwise everything up to the next ','
      or '\n'. */
  function ReadField(t: string): (r: Option<(string, string)>)
    ensures r.Some? ==> |r.value.1| <= |t|
  {
    if |t| > 0 && t[0] == '"' then ReadQuoted(t[1..])
    else var e := FieldEnd(t, 0); Some((t[..e], t[e..]))
  }

  /** The fields of one line up to and including its '\n'. */
  function ReadRow(t: string): (r: Option<(seq<string>, string)>)
    ensures r.Some? ==> |r.value.1| < |t|
    decreases |t|
  {
    match ReadField(t)
    case None => None
    case Some((f, rest)) =>
      if |rest| > 0 && rest[0] == ',' then
        match ReadRow(rest[1..]) case None => None case Some((fs, tail)) => Some(([f] + fs, tail))
      else if |rest| > 0 && rest[0] == '\n' then Some(([f], rest[1..]))
      else None
  }

  /** A CSV text as its rows of fields; every row must end with '\n'. */
  function ReadCsv(t: string): Option<seq<seq<string>>>
    decreases |t|
  {
    if t == [] then Some([])
    else match ReadRow(t)
      case None => None
      case Some((fields, rest)) =>
        match ReadCsv(rest) case None => None case Some(rows) => Some([fields] + rows)
  }

  /** The row a reader recovers for one company. */
  function CellTexts(company: Company, columns: seq<string>): (r: seq<string>)
    ensures |r| == |columns|
  {
    seq(|columns|, i requires 0 <= i < |columns| => CellText(Js.FieldValue(company, columns[i])))
  }

  function AllCellTexts(companies: seq<Company>, columns: seq<string>): (r: seq<seq<string>>)
    ensures |r| == |companies|
  {
    seq(|companies|, i requires 0 <= i < |companies| => CellTexts(companies[i], columns))
  }

  lemma {:induction false} ReadQuotedDoubled(x: string, rest: string)
    requires rest == [] || rest[0] != '"'
    ensures ReadQuoted(Str.ReplaceChar(x, '"', "\"\"") + "\"" + rest) == Some((x, rest))
    decreases |x|
  {
    var d := Str.ReplaceChar(x, '"', "\"\"");
    if x == [] {
      assert d + "\"" + rest == "\"" + rest;
    } else {
      var d1 := Str.ReplaceChar(x[1..], '"', "\"\"");
      ReadQuotedDoubled(x[1..], rest);
      var t := d + "\"" + rest;
      if x[0] == '"' {
        assert t == "\"\"" + (d1 + "\"" + rest);
        assert t[2..] == d1 + "\"" + rest;
      } else {
        assert t == [x[0]] + (d1 + "\"" + rest);
        assert t[1..] == d1 + "\"" + rest;
      }
      assert x == [x[0]] + x[1..];
    }
  }

  lemma NoSpecialAt(s: string)
    requires !(Str.Contains(s, ",") || Str.Contains(s, "\n") || Str.Contains(s, "\""))
    ensures forall k :: 0 <= k < |s| ==> !Special(s[k])
  {
    forall k | 0 <= k < |s| ensures !Special(s[k]) {
      if s[k] == ',' { Str.AtChar(s, ',', k); Str.ContainsAt(s, ",", k); }
      if s[k] == '\n' { Str.AtChar(s, '\n', k); Str.ContainsAt(s, "\n", k); }
      if s[k] == '"' { Str.AtChar(s, '"', k); Str.ContainsAt(s, "\"", k); }
    }
  }

  /** Reading a quoted cell undoes the quoting: the original text comes back. */
  lemma ReadFieldQuote(s: string, rest: string)
    requires rest == [] || rest[0] == ',' || rest[0] == '\n'
    ensures ReadField(Quote(s) + rest) == Some((s, rest))
  {
    if Str.Contains(s, ",") || Str.Contains(s, "\n") || Str.Contains(s, "\"") {
      ReadFieldQuoted(s, rest);
    } else {
      NoSpecialAt(s);
      ReadFieldPlain(s, rest);
    }
  }

  lemma ReadFieldQuoted(s: string, rest: string)
    requires rest == [] || rest[0] == ',' || rest[0] == '\n'
    requires Str.Contains(s, ",") || Str.Contains(s, "\n") || Str.Contains(s, "\"")
    ensures ReadField(Quote(s) + rest) == Some((s, rest))
  {
    var t := Quote(s) + rest;
    var d := Str.ReplaceChar(s, '"', "\"\"");
    assert t == "\"" + (d + "\"" + rest);
    assert t[1..] == d + "\"" + rest;
    ReadQuotedDoubled(s, rest);
  }

  lemma ReadFieldPlain(s: string, rest: string)
    requires rest == [] || rest[0] == ',' || rest[0] == '\n'
    requires !(Str.Contains(s, ",") || Str.Contains(s, "\n") || Str.Contains(s, "\""))
    requires forall k :: 0 <= k < |s| ==> !Special(s[k])
    ensures ReadField(Quote(s) + rest) == Some((s, rest))
  {
    var t := s + rest;
    assert Quote(s) == s;
    if |s| > 0 { assert t[0] == s[0]; }
    var e := FieldEnd(t, 0);
    assert forall k :: 0 <= k < |s| ==> t[k] == s[k];
    assert |s| < |t| ==> t[|s|] == rest[0];
    assert e == |s|;
    assert t[..e] == s && t[e..] == rest;
  }

  lemma ReadFieldCell(v: Js.Value, rest: string)
    requires rest == [] || rest[0] == ',' || rest[0] == '\n'
    ensures ReadField(Field(v) + rest) == Some((CellText(v), rest))
  {
    if Js.IsNullish(v) {
      ReadFieldQuote("", rest);
      assert Quote("") == "" by {
        assert !Str.Contains("", ",") && !Str.Contains("", "\n") && !Str.Contains("", "\"");
      }
    } else {
      ReadFieldQuote(Js.ToString(v), rest);
    }
  }

  lemma ReadRowLast(v: Js.Value, rest: string)
    ensures ReadRow(Field(v) + "\n" + rest) == Some(([CellText(v)], rest))
  {
    assert Field(v) + "\n" + rest == Field(v) + ("\n" + rest);
    ReadFieldCell(v, "\n" + rest);
    RowEnd(Field(v), CellText(v), rest);
  }

  lemma RowEnd(f: string, x: string, rest: string)
    requires ReadField(f + ("\n" + rest)) == Some((x, "\n" + rest))
    ensures ReadRow(f + ("\n" + rest)) == Some(([x], rest))
  {
    assert ("\n" + rest)[1..] == rest;
  }

  lemma ReadRowMore(v: Js.Value, t: string)
    requires ReadRow(t).Some?
    ensures ReadRow(Field(v) + "," + t) == Some(([CellText(v)] + ReadRow(t).value.0, ReadRow(t).value.1))
  {
    assert Field(v) + "," + t == Field(v) + ("," + t);
    ReadFieldCell(v, "," + t);
    RowMore(Field(v), CellText(v), t);
  }

  lemma RowMore(f: string, x: string, t: string)
    requires ReadRow(t).Some?
    requires ReadField(f + ("," + t)) == Some((x, "," + t))
    ensures ReadRow(f + ("," + t)) == Some(([x] + ReadRow(t).value.0, ReadRow(t).value.1))
  {
    assert ("," + t)[1..] == t;
  }

  /** A line made of quoted cells reads back as the cells' texts. */
  lemma {:induction false} ReadRowCells(vs: seq<Js.Value>, rest: string)
    requires |vs| > 0
    ensures ReadRow(Str.Join(FieldsOf(vs), ",") + "\n" + rest) == Some((TextsOf(vs), rest))
    decreases |vs|
  {
    if |vs| == 1 {
      assert FieldsOf(vs) == [Field(vs[0])];
      ReadRowLast(vs[0], rest);
      assert TextsOf(vs) == [CellText(vs[0])];
    } else {
      ReadRowCells(vs[1..], rest);
      ReadRowCons(vs, rest);
    }
  }

  /** The step of `ReadRowCells`: the first cell, then the rest of the line. */
  lemma ReadRowCons(vs: seq<Js.Value>, rest: string)
    requires |vs| > 1
    requires ReadRow(Str.Join(FieldsOf(vs[1..]), ",") + "\n" + rest) == Some((TextsOf(vs[1..]), rest))
    ensures ReadRow(Str.Join(FieldsOf(vs), ",") + "\n" + rest) == Some((TextsOf(vs), rest))
  {
    var tail := Str.Join(FieldsOf(vs[1..]), ",") + "\n" + rest;
    JoinedLine(vs, rest);
    ReadRowMore(vs[0], tail);
    TextsCons(vs);
  }

  lemma TextsCons(vs: seq<Js.Value>)
    requires |vs| > 0
    ensures TextsOf(vs) == [CellText(vs[0])] + TextsOf(vs[1..])
  {
  }

  lemma JoinedLine(vs: seq<Js.Value>, rest: string)
    requires |vs| > 1
    ensures Str.Join(FieldsOf(vs), ",") + "\n" + rest
      == Field(vs[0]) + "," + (Str.Join(FieldsOf(vs[1..]), ",") + "\n" + rest)
  {
    assert FieldsOf(vs) == [Field(vs[0])] + FieldsOf(vs[1..]);
    Str.JoinCons(Field(vs[0]), FieldsOf(vs[1..]), ",");
  }

  lemma ReadCsvStep(t: string)
    requires ReadRow(t).Some? && ReadCsv(ReadRow(t).value.1).Some?
    ensures ReadCsv(t) == Some([ReadRow(t).value.0] + ReadCsv(ReadRow(t).value.1).value)
  {
  }

  function FieldsOf(vs: seq<Js.Value>): (r: seq<string>)
    ensures |r| == |vs| && forall i :: 0 <= i < |vs| ==> r[i] == Field(vs[i])
  {
    seq(|vs|, i requires 0 <= i < |vs| => Field(vs[i]))
  }

  function TextsOf(vs: seq<Js.Value>): (r: seq<string>)
    ensures |r| == |vs| && forall i :: 0 <= i < |vs| ==> r[i] == CellText(vs[i])
  {
    seq(|vs|, i requires 0 <= i < |vs| => CellText(vs[i]))
  }

  function ValuesOf(company: Company, columns: seq<string>): (r: seq<Js.Value>)
    ensures |r| == |columns| && forall i :: 0 <= i < |columns| ==> r[i] == Js.FieldValue(company, columns[i])
  {
    seq(|columns|, i requires 0 <= i < |columns| => Js.FieldValue(company, columns[i]))
  }

  /** One exported row reads back as the company's cell texts, one per column. */
  lemma ReadOneRow(company: Company, columns: seq<string>, rest: string)
    requires |columns| > 0
    ensures ReadRow(Row(company, columns) + rest) == Some((CellTexts(company, columns), rest))
  {
    var vs := ValuesOf(company, columns);
    assert Cells(company, columns) == FieldsOf(vs);
    assert CellTexts(company, columns) == TextsOf(vs);
    ReadRowCells(vs, rest);
  }

  /** Column names that need no quoting: the header is written without any. */
  predicate PlainNames(columns: seq<string>) {
    forall i :: 0 <= i < |columns| ==> !NeedsQuotes(columns[i])
  }

  lemma PlainQuote(s: string)
    requires !NeedsQuotes(s)
    ensures Quote(s) == s
  {
    if Str.Contains(s, ",") { var k := Str.ContainsWitness(s, ","); Str.AtChar(s, ',', k); }
    if Str.Contains(s, "\n") { var k := Str.ContainsWitness(s, "\n"); Str.AtChar(s, '\n', k); }
    if Str.Contains(s, "\"") { var k := Str.ContainsWitness(s, "\""); Str.AtChar(s, '"', k); }
  }

  /** With plain column names the header reads back as the column list. */
  lemma ReadHeader(columns: seq<string>, rest: string)
    requires |columns| > 0 && PlainNames(columns)
    ensures ReadRow(Header(columns) + rest) == Some((columns, rest))
  {
    var vs := seq(|columns|, i requires 0 <= i < |columns| => Js.Text(columns[i]));
    forall i | 0 <= i < |columns| ensures Field(vs[i]) == columns[i] {
      PlainQuote(columns[i]);
    }
    assert FieldsOf(vs) == columns;
    assert TextsOf(vs) == columns;
    ReadRowCells(vs, rest);
  }

  lemma CsvMore(r: string, fields: seq<string>, rest: string)
    requires ReadRow(r + rest) == Some((fields, rest)) && ReadCsv(rest).Some?
    ensures ReadCsv(r + rest) == Some([fields] + ReadCsv(rest).value)
  {
    ReadCsvStep(r + rest);
  }

  lemma AllCellTextsSnoc(companies: seq<Company>, columns: seq<string>)
    requires companies != []
    ensures AllCellTexts(companies, columns)
         == AllCellTexts(companies[..|companies| - 1], columns) + [CellTexts(companies[|companies| - 1], columns)]
  {
  }

  lemma {:induction false} ReadRows(companies: seq<Company>, columns: seq<string>, rest: string)
    requires |columns| > 0
    requires ReadCsv(rest).Some?
    ensures ReadCsv(Rows(companies, columns) + rest) == Some(AllCellTexts(companies, columns) + ReadCsv(rest).value)
    decreases |companies|
  {
    if companies == [] {
      assert Rows(companies, columns) + rest == rest;
      assert AllCellTexts(companies, columns) + ReadCsv(rest).value == ReadCsv(rest).value;
    } else {
      var init := companies[..|companies| - 1];
      var last := companies[|companies| - 1];
      var lastRow := Row(last, columns);
      var texts := CellTexts(last, columns);
      ReadOneRow(last, columns, rest);
      CsvMore(lastRow, texts, rest);
      ReadRows(init, columns, lastRow + rest);
      assert Rows(companies, columns) == Rows(init, columns) + lastRow;
      Seqs.AppendAssoc(Rows(init, columns), lastRow, rest);
      AllCellTextsSnoc(companies, columns);
      Seqs.AppendAssoc(AllCellTexts(init, columns), [texts], ReadCsv(rest).value);
    }
  }

  /** Reading the exported file gives back the header's column names followed by, for each
      company in order, its cell texts: one field per column in every row, and every quoted
      field unquotes to the original text. */
  lemma ReadExport(companies: seq<Company>)
    requires companies != [] && |Js.Keys(companies[0])| > 0 && PlainNames(Js.Keys(companies[0]))
    ensures var columns := Js.Keys(companies[0]);
      ReadCsv(Header(columns) + Rows(companies, columns)) == Some([columns] + AllCellTexts(companies, columns))
  {
    var columns := Js.Keys(companies[0]);
    ReadBody(companies, columns);
    ReadHeader(columns, Rows(companies, columns));
    CsvMore(Header(columns), columns, Rows(companies, columns));
  }

  lemma ReadBody(companies: seq<Company>, columns: seq<string>)
    requires |columns| > 0
    ensures ReadCsv(Rows(companies, columns)) == Some(AllCellTexts(companies, columns))
  {
    var e: string := [];
    assert ReadCsv(e) == Some([]);
    ReadRows(companies, columns, e);
    assert Rows(companies, columns) + e == Rows(companies, columns);
    assert AllCellTexts(companies, columns) + [] == AllCellTexts(companies, columns);
  }

  // ---------------------------------------------------------------- industry tally

  /** `c.industry || 'Unknown'`, as the key it becomes. */
  function IndustryKey(company: Company): string {
    Js.TextOr(Js.FieldValue(company, "industry"), "Unknown")
  }

  function IndustryKeys(companies: seq<Company>): (r: seq<string>)
    ensures |r| == |companies| && forall i :: 0 <= i < |companies| ==> r[i] == IndustryKey(companies[i])
  {
    seq(|companies|, i requires 0 <= i < |companies| => IndustryKey(companies[i]))
  }

  /** The printed industry summary: every industry with its count, largest first. */
  function IndustrySummary(companies: seq<Company>): seq<Tally.Entry<string>> {
    var table := Tally.Counts(IndustryKeys(companies));
    Tally.Top(table, |table|)
  }

  /** The summary lists every industry once, in non-increasing count, with counts that add
      up to the number of companies. */
  lemma IndustrySummaryProps(companies: seq<Company>)
    ensures Ranking.SortedDesc(IndustrySummary(companies), Tally.CountKey)
    ensures multiset(IndustrySummary(companies)) == multiset(Tally.Counts(IndustryKeys(companies)))
    ensures Tally.Total(Tally.Counts(IndustryKeys(companies))) == |companies|
  {
    var table := Tally.Counts(IndustryKeys(companies));
    Tally.TopProps(table, |table|);
    Tally.CountsTotal(IndustryKeys(companies));
  }
}
