/** AIBusinessService: the query-intent heuristic, the structured-query parser and the
    text context handed to the language model. The model's and the repository's answers
    are parameters. */
module AIBusinessService {
  import opened Wrappers
  import Str
  import Js
  import Ranking
  import E = BusinessEntity

  // ------------------------------------------------------------------ analyzeQueryIntent

  datatype SearchType = Semantic | Structured

  predicate HasStructuredLabel(query: string) {
    var lower := Str.Lower(query);
    Str.Contains(lower, "industry:") || Str.Contains(lower, "revenue:") || Str.Contains(lower, "employees:")
  }

  /** A revenue bound: `{ min: value }` or `{ max: value }`. */
  datatype RevenueRange = AtLeast(min: nat) | AtMost(max: nat)

  datatype Filters = Filters(industry: Option<seq<string>>, revenueRange: Option<RevenueRange>)

  datatype Intent = Intent(searchType: SearchType, searchQuery: string, filters: Option<Filters>)

  /** `analyzeQueryIntent`: structured when the lower-cased query names one of the
      labels, with the parsed filters; semantic otherwise. The query is passed on as it is. */
  function AnalyzeQueryIntent(query: string): (r: Intent)
    ensures r.searchType == Structured <==> HasStructuredLabel(query)
    ensures r.searchQuery == query
    ensures r.filters.Some? <==> r.searchType == Structured
  {
    if HasStructuredLabel(query) then Intent(Structured, query, Some(ParseStructuredQuery(query)))
    else Intent(Semantic, query, None)
  }

  // ------------------------------------------------------------------ parseStructuredQuery

  function WordRunEnd(s: string, i: nat): (j: nat)
    requires i <= |s|
    ensures i <= j <= |s|
    ensures forall k :: i <= k < j ==> Str.IsWordChar(s[k])
    ensures j == |s| || !Str.IsWordChar(s[j])
    decreases |s| - i
  {
    if i < |s| && Str.IsWordChar(s[i]) then WordRunEnd(s, i + 1) else i
  }

  /** `/industry:(\w+)/i` tried at index i. */
  predicate IndustryAt(s: string, i: int) {
    Str.AtIgnoringCase(s, "industry:", i) && i + 9 < |s| && Str.IsWordChar(s[i + 9])
  }

  /** The leftmost match of `/industry:(\w+)/i` at or after `from`, as its start. */
  function IndustryMatch(s: string, from: nat): (r: Option<nat>)
    ensures r.Some? ==> from <= r.value && IndustryAt(s, r.value)
    ensures r.Some? ==> forall j :: from <= j < r.value ==> !IndustryAt(s, j)
    ensures r.None? ==> forall j :: from <= j ==> !IndustryAt(s, j)
    decreases |s| - from
  {
    if from + 9 >= |s| then None
    else if IndustryAt(s, from) then Some(from)
    else IndustryMatch(s, from + 1)
  }

  /** The capture group: the maximal run of word characters after the label. */
  function IndustryWord(s: string): (r: Option<string>)
    ensures r.Some? ==> r.value != [] && forall k :: 0 <= k < |r.value| ==> Str.IsWordChar(r.value[k])
  {
    match IndustryMatch(s, 0)
    case None => None
    case Some(i) => Some(s[i + 9..WordRunEnd(s, i + 9)])
  }

  /** Where `([><]=?)(\d+)` matches at index j: whether the operator holds '>' and where
      its digits start. `=?` is greedy but gives the '=' back when no digit follows it. */
  function OperatorAt(s: string, j: int): (r: Option<(bool, nat)>)
    ensures r.Some? ==> 0 <= j < |s| && (s[j] == '>' || s[j] == '<') && r.value.0 == (s[j] == '>')
    ensures r.Some? ==> r.value.1 < |s| && Str.IsDigit(s[r.value.1])
    ensures r.Some? ==> r.value.1 == j + 1 || (r.value.1 == j + 2 && s[j + 1] == '=')
  {
    if 0 <= j < |s| && (s[j] == '>' || s[j] == '<') then
      if j + 2 < |s| && s[j + 1] == '=' && Str.IsDigit(s[j + 2]) then Some((s[j] == '>', j + 2))
      else if j + 1 < |s| && Str.IsDigit(s[j + 1]) then Some((s[j] == '>', j + 1))
      else None
    else None
  }

  predicate RevenueAt(s: string, i: int) {
    Str.AtIgnoringCase(s, "revenue:", i) && OperatorAt(s, i + 8).Some?
  }

  /** The leftmost match of `/revenue:([><]=?)(\d+)/i` at or after `from`. */
  function RevenueMatch(s: string, from: nat): (r: Option<nat>)
    ensures r.Some? ==> from <= r.value && RevenueAt(s, r.value)
    ensures r.Some? ==> forall j :: from <= j < r.value ==> !RevenueAt(s, j)
    ensures r.None? ==> forall j :: from <= j ==> !RevenueAt(s, j)
    decreases |s| - from
  {
    if from + 8 >= |s| then None
    else if RevenueAt(s, from) then Some(from)
    else RevenueMatch(s, from + 1)
  }

  function RevenueFilter(s: string): Option<RevenueRange> {
    match RevenueMatch(s, 0)
    case None => None
    case Some(i) =>
      var op := OperatorAt(s, i + 8).value;
      var value := Str.DigitsValue(s[op.1..Str.DigitRunEnd(s, op.1)]);
      Some(if op.0 then AtLeast(value) else AtMost(value))
  }

  /** `parseStructuredQuery`: "industry:" gives a one-word industry list and "revenue:"
      with an operator gives a bound; "employees:" gives nothing. */
  function ParseStructuredQuery(query: string): Filters {
    Filters(match IndustryWord(query) case None => None case Some(w) => Some([w]),
            RevenueFilter(query))
  }

  lemma LowerSlice(s: string, i: nat, j: nat)
    requires i <= j <= |s|
    ensures Str.Lower(s)[i..j] == Str.Lower(s[i..j])
  {
  }

  /** A filter is only ever parsed from a query that the intent check calls structured. */
  lemma FiltersImplyStructured(query: string)
    requires ParseStructuredQuery(query) != Filters(None, None)
    ensures AnalyzeQueryIntent(query).searchType == Structured
  {
    var lower := Str.Lower(query);
    if IndustryMatch(query, 0).Some? {
      var i := IndustryMatch(query, 0).value;
      LowerSlice(query, i, i + 9);
      Str.ContainsAt(lower, "industry:", i);
    } else {
      var i := RevenueMatch(query, 0).value;
      LowerSlice(query, i, i + 8);
      Str.ContainsAt(lower, "revenue:", i);
    }
  }

  /** A label followed by a word yields exactly that word, in one piece. */
  lemma IndustryWordOf(w: string)
    requires w != [] && forall k :: 0 <= k < |w| ==> Str.IsWordChar(w[k])
    ensures ParseStructuredQuery("industry:" + w).industry == Some([w])
  {
    var s := "industry:" + w;
    assert s[0..9] == "industry:";
    assert s[9] == w[0];
    assert IndustryAt(s, 0);
    assert WordRunEnd(s, 9) == |s| by {
      WordRunAll(s, 9);
    }
    assert s[9..|s|] == w;
  }

  lemma {:induction false} WordRunAll(s: string, i: nat)
    requires i <= |s| && forall k :: i <= k < |s| ==> Str.IsWordChar(s[k])
    ensures WordRunEnd(s, i) == |s|
    decreases |s| - i
  {
    if i < |s| {
      WordRunAll(s, i + 1);
    }
  }

  lemma {:induction false} DigitRunAll(s: string, i: nat)
    requires i <= |s| && forall k :: i <= k < |s| ==> Str.IsDigit(s[k])
    ensures Str.DigitRunEnd(s, i) == |s|
    decreases |s| - i
  {
    if i < |s| {
      DigitRunAll(s, i + 1);
    }
  }

  /** ">" and ">=" set a minimum, "<" and "<=" a maximum, of the written value. */
  lemma RevenueFilterOf(op: string, n: nat)
    requires op in [">", ">=", "<", "<="]
    ensures RevenueFilter("revenue:" + op + Str.NatToString(n)) ==
      Some(if op[0] == '>' then AtLeast(n) else AtMost(n))
  {
    var d := Str.NatToString(n);
    var s := "revenue:" + op + d;
    assert s[0..8] == "revenue:";
    var start := 8 + |op|;
    assert s[start..] == d;
    assert s[8] == op[0];
    if |op| == 2 { assert s[9] == '='; }
    assert Str.IsDigit(s[start]);
    assert OperatorAt(s, 8) == Some((op[0] == '>', start));
    assert RevenueAt(s, 0);
    DigitRunAll(s, start);
    assert s[start..|s|] == d;
    Str.NatToStringValue(n);
  }

  /** Without an operator the revenue label sets no bound. */
  lemma RevenueWithoutOperator(n: nat)
    ensures RevenueFilter("revenue:" + Str.NatToString(n)).None?
  {
    var d := Str.NatToString(n);
    var s := "revenue:" + d;
    forall j | 0 <= j ensures !RevenueAt(s, j) {
      if j == 0 {
        assert s[8] == d[0];
      } else if Str.AtIgnoringCase(s, "revenue:", j) {
        assert Str.Lower(s[j..j + 8])[0] == 'r';
        assert Str.LowerChar(s[j]) == 'r';
        if j < 8 {
          assert s[j] == "revenue:"[j];
        } else {
          assert s[j] == d[j - 8];
        }
      }
    }
  }

  // ------------------------------------------------------------------ generateBusinessContext

  const NO_RESULTS := "No businesses found matching the query."

  function ContextLine(b: E.Business): string {
    "- " + b.name + ": " + (if Js.Filled(b.industry) then b.industry.value else "Unknown industry")
    + ", " + (if Js.Nonzero(b.employeeCount) then Str.IntToString(b.employeeCount.value) else "Unknown")
    + " employees, $" + (if b.revenue.Some? then Str.IntToString(b.revenue.value) else "Unknown")
    + " revenue, located in " + (if Js.Filled(b.neighborhood) then b.neighborhood.value else b.city)
  }

  function ContextLines(bs: seq<E.Business>): (r: seq<string>)
    ensures |r| == |bs| && forall i :: 0 <= i < |bs| ==> r[i] == ContextLine(bs[i])
  {
    seq(|bs|, i requires 0 <= i < |bs| => ContextLine(bs[i]))
  }

  function ContextHeader(n: nat): string {
    "Found " + Str.NatToString(n) + " businesses. Top results:"
  }

  function GenerateBusinessContext(bs: seq<E.Business>): string {
    if bs == [] then NO_RESULTS
    else ContextHeader(|bs|) + "\n" + Str.Join(ContextLines(Ranking.Take(bs, 5)), "\n")
  }

  lemma HeaderNoBreak(n: nat)
    ensures '\n' !in ContextHeader(n)
  {
    var digits := Str.NatToString(n);
    assert forall k :: 0 <= k < |digits| ==> digits[k] != '\n';
  }

  lemma ContextSplit(bs: seq<E.Business>)
    requires bs != [] && forall i :: 0 <= i < |bs| && i < 5 ==> '\n' !in ContextLine(bs[i])
    ensures Str.SplitOn(GenerateBusinessContext(bs), '\n') == [ContextHeader(|bs|)] + ContextLines(Ranking.Take(bs, 5))
  {
    var top := Ranking.Take(bs, 5);
    var lines := ContextLines(top);
    var h := ContextHeader(|bs|);
    HeaderNoBreak(|bs|);
    forall k | 0 <= k < |lines| ensures '\n' !in lines[k] {
      assert top[k] == bs[k];
    }
    Str.JoinCons(h, lines, "\n");
    assert "\n" == ['\n'];
    Str.SplitOnJoin([h] + lines, '\n');
  }

  lemma ContextLineStarts(b: E.Business)
    ensures Str.StartsWith(ContextLine(b), "- " + b.name)
  {
    var p := "- " + b.name;
    assert ContextLine(b) == p + (ContextLine(b)[|p|..]);
  }

  lemma ContextNotEmpty(bs: seq<E.Business>)
    requires bs != []
    ensures GenerateBusinessContext(bs) != NO_RESULTS
  {
    var h := ContextHeader(|bs|);
    var c := GenerateBusinessContext(bs);
    assert c == h + ("\n" + Str.Join(ContextLines(Ranking.Take(bs, 5)), "\n"));
    assert c[0] == h[0] == 'F';
  }

  /** No businesses gives the fixed message; otherwise the first line reports the full
      count and one line follows for each of the first five businesses, in order (read
      back by splitting at line breaks, when no field holds one). */
  lemma ContextProps(bs: seq<E.Business>)
    ensures bs == [] <==> GenerateBusinessContext(bs) == NO_RESULTS
    ensures bs != [] && (forall i :: 0 <= i < |bs| && i < 5 ==> '\n' !in ContextLine(bs[i])) ==>
      var pieces := Str.SplitOn(GenerateBusinessContext(bs), '\n');
      && pieces == [ContextHeader(|bs|)] + ContextLines(Ranking.Take(bs, 5))
      && |pieces| == 1 + (if |bs| < 5 then |bs| else 5)
      && forall k :: 1 <= k < |pieces| ==> Str.StartsWith(pieces[k], "- " + bs[k - 1].name)
  {
    if bs != [] {
      ContextNotEmpty(bs);
      if forall i :: 0 <= i < |bs| && i < 5 ==> '\n' !in ContextLine(bs[i]) {
        ContextSplit(bs);
        PiecesStart(bs, [ContextHeader(|bs|)] + ContextLines(Ranking.Take(bs, 5)));
      }
    }
  }

  /** The header followed by the lines of the first five: one line per business shown,
      each opening with its name. */
  lemma PiecesStart(bs: seq<E.Business>, pieces: seq<string>)
    requires pieces == [ContextHeader(|bs|)] + ContextLines(Ranking.Take(bs, 5))
    ensures |pieces| == 1 + (if |bs| < 5 then |bs| else 5)
    ensures forall k :: 1 <= k < |pieces| ==> Str.StartsWith(pieces[k], "- " + bs[k - 1].name)
  {
    var lines := ContextLines(Ranking.Take(bs, 5));
    forall k | 1 <= k < |pieces| ensures Str.StartsWith(pieces[k], "- " + bs[k - 1].name) {
      assert pieces[k] == lines[k - 1] == ContextLine(bs[k - 1]);
      ContextLineStarts(bs[k - 1]);
    }
  }

  // ------------------------------------------------------------------ the query flow

  /** `enhanceBusinessQuery`: a semantic query takes the semantic results; a structured
      one asks the repository's search with the query and its parsed filters. */
  function EnhanceBusinessQuery(userQuery: string, semanticResults: seq<E.Business>,
                                search: (string, Filters) -> seq<E.Business>): (r: (seq<E.Business>, string))
    ensures !HasStructuredLabel(userQuery) ==> r.0 == semanticResults
    ensures HasStructuredLabel(userQuery) ==> r.0 == search(userQuery, ParseStructuredQuery(userQuery))
    ensures r.1 == GenerateBusinessContext(r.0)
  {
    var intent := AnalyzeQueryIntent(userQuery);
    var businesses :=
      if intent.searchType == Semantic then semanticResults
      else search(if intent.searchQuery != "" then intent.searchQuery else userQuery, intent.filters.value);
    (businesses, GenerateBusinessContext(businesses))
  }

  /** `generateBusinessInsights` once the business has been looked up and the model has
      replied: the not-found error, or the reply's content, with a fixed text for an empty
      or missing one. */
  function BusinessInsights(businessId: string, found: Option<E.Business>, reply: Option<string>): (r: Result<string>)
    ensures r.Err? <==> found.None?
    ensures r.Err? ==> r.msg == "Business not found: " + businessId
    ensures r.Ok? ==> r.value != ""
    ensures r.Ok? && Js.Filled(reply) ==> r.value == reply.value
  {
    if found.None? then Err("Business not found: " + businessId)
    else Ok(if Js.Filled(reply) then reply.value else "Unable to generate insights")
  }
}
