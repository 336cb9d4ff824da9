/** The `/api/unified-search` endpoint: semantic, keyword or hybrid search over the
    `companies` table, the filters applied to semantic matches, the relevance score put on
    every result, the optional AI annotations and the optional analytics. What the database
    and the models answer is a parameter. */
module UnifiedSearch {
  import opened Wrappers
  import Str
  import Js
  import Ranking
  import Dedupe
  import Tally
  import CS = ConversationSearch
  import Seqs
  import C = Companies

  /** The request's `filters` object; a missing one is `NO_FILTERS`. */
  datatype Filters = Filters(
    industry: Option<seq<string>>, location: Option<seq<string>>,
    minRevenue: Option<int>, maxRevenue: Option<int>, minEmployees: Option<int>, maxEmployees: Option<int>)

  const NO_FILTERS := Filters(None, None, None, None, None, None)

  /** A result: the row, the search that found it and, once annotated, the AI context and
      whether annotating worked. */
  datatype Found = Found(company: C.Company, searchMethod: string, aiContext: Option<string>, enhanced: Option<bool>)

  function FoundId(f: Found): string { f.company.id }

  function Tag(rows: seq<C.Company>, method_: string): (r: seq<Found>)
    ensures |r| == |rows|
    ensures forall k :: 0 <= k < |rows| ==> r[k] == Found(rows[k], method_, None, None)
  {
    seq(|rows|, k requires 0 <= k < |rows| => Found(rows[k], method_, None, None))
  }

  function Companies(rs: seq<Found>): (r: seq<C.Company>)
    ensures |r| == |rs|
    ensures forall k :: 0 <= k < |rs| ==> r[k] == rs[k].company
  {
    seq(|rs|, k requires 0 <= k < |rs| => rs[k].company)
  }

  // ------------------------------------------------------------------ applyFilters

  /** The test `applyFilters` makes of one row, in the order of its early returns: a
      truthy bound compares against the value or 0, and a non-empty list needs a
      case-insensitive substring match. */
  predicate PassesFilters(f: Filters, c: C.Company) {
    if Js.Nonzero(f.minRevenue) && C.OrZero(c.revenue) < f.minRevenue.value then false
    else if Js.Nonzero(f.maxRevenue) && C.OrZero(c.revenue) > f.maxRevenue.value then false
    else if Js.Nonzero(f.minEmployees) && C.OrZero(c.employees) < f.minEmployees.value then false
    else if Js.Nonzero(f.maxEmployees) && C.OrZero(c.employees) > f.maxEmployees.value then false
    else if C.Given(f.industry) && !C.AnyMentions([c.industry], f.industry.value) then false
    else if C.Given(f.location) && !C.AnyMentions([c.headquarters], f.location.value) then false
    else true
  }

  function ApplyFilters(rows: seq<C.Company>, f: Filters): seq<C.Company> {
    Seqs.Where(rows, c => PassesFilters(f, c))
  }

  /** The conditions `applyFilters` imposes, all at once: every truthy bound holds of the
      value (0 when missing), some industry filter occurs in the industry and some location
      filter in the headquarters. */
  predicate Admits(f: Filters, c: C.Company) {
    && (Js.Nonzero(f.minRevenue) ==> C.OrZero(c.revenue) >= f.minRevenue.value)
    && (Js.Nonzero(f.maxRevenue) ==> C.OrZero(c.revenue) <= f.maxRevenue.value)
    && (Js.Nonzero(f.minEmployees) ==> C.OrZero(c.employees) >= f.minEmployees.value)
    && (Js.Nonzero(f.maxEmployees) ==> C.OrZero(c.employees) <= f.maxEmployees.value)
    && (C.Given(f.industry) ==> exists k :: 0 <= k < |f.industry.value| && C.Mentions(c.industry, f.industry.value[k]))
    && (C.Given(f.location) ==> exists k :: 0 <= k < |f.location.value| && C.Mentions(c.headquarters, f.location.value[k]))
  }

  lemma AnyMentionsOne(field: Option<string>, needles: seq<string>)
    ensures C.AnyMentions([field], needles) <==> exists k :: 0 <= k < |needles| && C.Mentions(field, needles[k])
  {
    if exists k :: 0 <= k < |needles| && C.Mentions(field, needles[k]) {
      var k :| 0 <= k < |needles| && C.Mentions(field, needles[k]);
      assert [field][0] == field;
    }
  }

  /** The chain of early returns accepts exactly the rows the conditions admit. */
  lemma PassesIff(f: Filters, c: C.Company)
    ensures PassesFilters(f, c) <==> Admits(f, c)
  {
    if C.Given(f.industry) { AnyMentionsOne(c.industry, f.industry.value); }
    if C.Given(f.location) { AnyMentionsOne(c.headquarters, f.location.value); }
  }

  /** Kept rows are exactly the admitted ones, in their order; filtering twice is
      filtering once. */
  lemma ApplyFiltersProps(rows: seq<C.Company>, f: Filters)
    ensures forall c :: c in ApplyFilters(rows, f) <==> c in rows && Admits(f, c)
    ensures Dedupe.Subseq(ApplyFilters(rows, f), rows)
    ensures ApplyFilters(ApplyFilters(rows, f), f) == ApplyFilters(rows, f)
  {
    Seqs.WhereOrder(rows, c => PassesFilters(f, c));
    forall c ensures PassesFilters(f, c) <==> Admits(f, c) { PassesIff(f, c); }
    FilterTwice(rows, f);
  }

  lemma {:induction false} FilterTwice(rows: seq<C.Company>, f: Filters)
    ensures ApplyFilters(ApplyFilters(rows, f), f) == ApplyFilters(rows, f)
    decreases |rows|
  {
    if rows != [] {
      FilterTwice(rows[1..], f);
      var rest := ApplyFilters(rows[1..], f);
      var w := ApplyFilters(rows, f);
      if PassesFilters(f, rows[0]) {
        assert w == [rows[0]] + rest;
        assert w[0] == rows[0] && w[1..] == rest;
        assert ApplyFilters(w, f) == [rows[0]] + ApplyFilters(rest, f);
      } else {
        assert w == rest;
      }
    }
  }

  lemma NoFiltersKeepAll(rows: seq<C.Company>)
    ensures ApplyFilters(rows, NO_FILTERS) == rows
    decreases |rows|
  {
    if rows != [] {
      NoFiltersKeepAll(rows[1..]);
      assert rows == [rows[0]] + rows[1..];
    }
  }

  // ------------------------------------------------------------------ the two searches

  /** `performSemanticSearch`: the database function returns at most `2 * limit` matches
      (best first); those passing the filters are cut to `limit`. `matches` is None when
      the embedding call or the database function failed, which gives no results. */
  function SemanticSearch(matches: Option<seq<C.Company>>, f: Filters, limit: nat): seq<Found> {
    if matches.None? then []
    else Tag(Ranking.Take(ApplyFilters(Ranking.Take(matches.value, limit * 2), f), limit), "semantic")
  }

  /** The query's keyword terms: lower-cased, split at white space, longer than two. */
  function KeywordTerms(query: string): seq<string> {
    CS.LongTokens(Str.SplitWs(Str.Lower(query)))
  }

  /** Each term is longer than two characters and has no upper-case letter; every long
      enough piece of the lower-cased query is one. */
  lemma KeywordTermsProps(query: string)
    ensures forall t :: t in KeywordTerms(query) <==> t in Str.SplitWs(Str.Lower(query)) && |t| > 2
    ensures forall t :: t in KeywordTerms(query) ==> forall i :: 0 <= i < |t| ==> !Str.IsUpper(t[i])
  {
    var pieces := Str.SplitWs(Str.Lower(query));
    CS.SplitWsChars(Str.Lower(query));
    forall t, i | t in KeywordTerms(query) && 0 <= i < |t| ensures !Str.IsUpper(t[i]) {
      var k :| 0 <= k < |pieces| && pieces[k] == t;
      assert t[i] in Str.Lower(query);
    }
  }

  /** The row test the keyword query puts to the database: active; some term in the name,
      description or industry (when there are terms); the filter lists as `or` groups; and
      truthy bounds as SQL comparisons, which a NULL fails. */
  predicate KeywordMatch(terms: seq<string>, f: Filters, c: C.Company) {
    && c.status == "active"
    && (terms != [] ==> C.AnyMentions([Some(c.name), c.description, c.industry], terms))
    && (C.Given(f.industry) ==> C.AnyMentions([c.industry], f.industry.value))
    && (C.Given(f.location) ==> C.AnyMentions([c.headquarters], f.location.value))
    && (Js.Nonzero(f.minRevenue) ==> C.AtLeast(c.revenue, f.minRevenue.value))
    && (Js.Nonzero(f.maxRevenue) ==> C.AtMost(c.revenue, f.maxRevenue.value))
    && (Js.Nonzero(f.minEmployees) ==> C.AtLeast(c.employees, f.minEmployees.value))
    && (Js.Nonzero(f.maxEmployees) ==> C.AtMost(c.employees, f.maxEmployees.value))
  }

  /** `performKeywordSearch` over the `companies` table (None when the query failed, which
      gives no results): the matching rows, highest revenue first, cut to `limit`. */
  function KeywordSearch(table: Option<seq<C.Company>>, query: string, f: Filters, limit: nat): seq<Found> {
    if table.None? then []
    else Tag(Ranking.Take(C.ByRevenue(Seqs.Where(table.value, c => KeywordMatch(KeywordTerms(query), f, c))), limit), "keyword")
  }

  lemma TakeIn<T>(s: seq<T>, n: nat, x: T)
    requires x in Ranking.Take(s, n)
    ensures x in s
  {
    var k :| 0 <= k < |Ranking.Take(s, n)| && Ranking.Take(s, n)[k] == x;
    assert s[k] == x;
  }

  /** Semantic results are at most `limit` matches that pass the filters. */
  lemma SemanticSearchProps(matches: Option<seq<C.Company>>, f: Filters, limit: nat)
    ensures |SemanticSearch(matches, f, limit)| <= limit
    ensures forall r :: r in SemanticSearch(matches, f, limit) ==>
      r.searchMethod == "semantic" && r.company in matches.value && PassesFilters(f, r.company)
  {
    var r := SemanticSearch(matches, f, limit);
    forall x | x in r ensures x.searchMethod == "semantic" && x.company in matches.value && PassesFilters(f, x.company) {
      var k :| 0 <= k < |r| && r[k] == x;
      var kept := ApplyFilters(Ranking.Take(matches.value, limit * 2), f);
      TakeIn(kept, limit, x.company);
      TakeIn(matches.value, limit * 2, x.company);
    }
  }

  /** Keyword results are at most `limit` matching rows of the table, in non-increasing
      revenue with rows without one last. */
  lemma KeywordSearchProps(table: Option<seq<C.Company>>, query: string, f: Filters, limit: nat)
    ensures |KeywordSearch(table, query, f, limit)| <= limit
    ensures forall r :: r in KeywordSearch(table, query, f, limit) ==>
      r.searchMethod == "keyword" && r.company in table.value && KeywordMatch(KeywordTerms(query), f, r.company)
    ensures var r := KeywordSearch(table, query, f, limit);
      forall i, j :: 0 <= i < j < |r| ==> C.RevenueFirst(r[i].company, r[j].company)
  {
    if table.Some? {
      var rows := Seqs.Where(table.value, c => KeywordMatch(KeywordTerms(query), f, c));
      C.ByRevenueProps(rows);
      var r := KeywordSearch(table, query, f, limit);
      forall x | x in r ensures x.company in table.value && KeywordMatch(KeywordTerms(query), f, x.company) {
        var k :| 0 <= k < |r| && r[k] == x;
        TakeIn(C.ByRevenue(rows), limit, x.company);
        assert x.company in multiset(C.ByRevenue(rows));
      }
    }
  }

  // ------------------------------------------------------------------ hybrid

  /** `Math.ceil(limit * 0.7)` and `Math.ceil(limit * 0.3)`. */
  function SemanticShare(limit: nat): nat { CS.Ceil(7 * limit, 10) }
  function KeywordShare(limit: nat): nat { CS.Ceil(3 * limit, 10) }

  /** The two shares never ask for more than `limit` each and together ask for at least
      `limit`. */
  lemma SharesCover(limit: nat)
    ensures SemanticShare(limit) <= limit && KeywordShare(limit) <= limit
    ensures SemanticShare(limit) + KeywordShare(limit) >= limit
  {
    var a, b := SemanticShare(limit), KeywordShare(limit);
    assert a * 10 >= 7 * limit && b * 10 >= 3 * limit;
    assert (a + b) * 10 >= 10 * limit;
    assert a == 0 || (a - 1) * 10 < 7 * limit;
    assert b == 0 || (b - 1) * 10 < 3 * limit;
  }

  /** The hybrid branch: both searches with their shares, semantic first, the first row
      per id kept, cut to `limit`. */
  function Hybrid(query: string, matches: Option<seq<C.Company>>, table: Option<seq<C.Company>>, f: Filters,
                  limit: nat): seq<Found> {
    Ranking.Take(Dedupe.ByKey(SemanticSearch(matches, f, SemanticShare(limit))
                              + KeywordSearch(table, query, f, KeywordShare(limit)), FoundId), limit)
  }

  /** Hybrid results number at most `limit`, have distinct ids and come from one of the
      two searches; when the searches found at least `limit` distinct rows, exactly
      `limit` are returned. */
  lemma HybridProps(query: string, matches: Option<seq<C.Company>>, table: Option<seq<C.Company>>, f: Filters,
                    limit: nat)
    ensures var both := SemanticSearch(matches, f, SemanticShare(limit)) + KeywordSearch(table, query, f, KeywordShare(limit));
      var r := Hybrid(query, matches, table, f, limit);
      && |r| <= limit
      && Dedupe.DistinctKeys(r, FoundId)
      && (forall x :: x in r ==> x in both)
      && (|Dedupe.KeySet(both, FoundId)| >= limit ==> |r| == limit)
  {
    var both := SemanticSearch(matches, f, SemanticShare(limit)) + KeywordSearch(table, query, f, KeywordShare(limit));
    var u := Dedupe.ByKey(both, FoundId);
    Dedupe.ByKeyProps(both, FoundId);
    var r := Hybrid(query, matches, table, f, limit);
    forall i, j | 0 <= i < j < |r| ensures FoundId(r[i]) != FoundId(r[j]) {
      assert r[i] == u[i] && r[j] == u[j];
    }
    forall x | x in r ensures x in both {
      TakeIn(u, limit, x);
      Dedupe.SubseqIn(u, both, x);
    }
    if |Dedupe.KeySet(both, FoundId)| >= limit {
      KeySetSize(u);
    }
  }

  /** Rows with distinct ids have as many ids as rows. */
  lemma {:induction false} KeySetSize(u: seq<Found>)
    requires Dedupe.DistinctKeys(u, FoundId)
    ensures |Dedupe.KeySet(u, FoundId)| == |u|
    decreases |u|
  {
    if u != [] {
      var init := u[..|u| - 1];
      assert Dedupe.DistinctKeys(init, FoundId) by {
        forall i, j | 0 <= i < j < |init| ensures FoundId(init[i]) != FoundId(init[j]) {
          assert init[i] == u[i] && init[j] == u[j];
        }
      }
      KeySetSize(init);
      var last := FoundId(u[|u| - 1]);
      assert Dedupe.KeySet(u, FoundId) == Dedupe.KeySet(init, FoundId) + {last};
      assert last !in Dedupe.KeySet(init, FoundId);
    }
  }

  // ------------------------------------------------------------------ relevance score

  /** `${name} ${description || ""} ${industry || ""}`, lower-cased. */
  function RelevanceText(c: C.Company): string {
    Str.Lower(c.name + " " + C.OrEmpty(c.description) + " " + C.OrEmpty(c.industry))
  }

  function NameBoost(query: string, c: C.Company): real {
    if Str.Contains(Str.Lower(c.name), Str.Lower(query)) then 0.5 else 0.0
  }

  function Cap(x: real): real { if x < 1.0 then x else 1.0 }

  /** `calculateKeywordRelevance` as written: every piece of the split query is counted,
      including the empty piece that white space at either end of the query produces. */
  function KeywordRelevanceAsWritten(query: string, c: C.Company): real {
    if C.HasSimilarity(c) then c.similarity.value
    else Cap(0.1 * CS.WordHits(RelevanceText(c), Str.SplitWs(Str.Lower(query))) as real + NameBoost(query, c))
  }

  function NonEmpty(ts: seq<string>): (r: seq<string>)
    ensures forall t :: t in r <==> t in ts && t != ""
    decreases |ts|
  {
    if ts == [] then []
    else
      assert ts == [ts[0]] + ts[1..];
      (if ts[0] != "" then [ts[0]] else []) + NonEmpty(ts[1..])
  }

  /** `calculateKeywordRelevance` counting only the non-empty pieces of the query. */
  function KeywordRelevance(query: string, c: C.Company): real {
    if C.HasSimilarity(c) then c.similarity.value
    else Cap(0.1 * CS.WordHits(RelevanceText(c), NonEmpty(Str.SplitWs(Str.Lower(query)))) as real + NameBoost(query, c))
  }

  /** `result.similarity || calculateKeywordRelevance(query, result)`, with the relevance as
      written: a truthy similarity is the score, otherwise the capped keyword score. */
  function RelevanceScore(query: string, c: C.Company): (r: real)
    ensures C.HasSimilarity(c) ==> r == c.similarity.value
    ensures !C.HasSimilarity(c) ==> 0.0 <= r <= 1.0
    ensures !C.HasSimilarity(c) && Str.Contains(Str.Lower(c.name), Str.Lower(query)) ==> r >= 0.5
  {
    if C.HasSimilarity(c) then c.similarity.value else KeywordRelevanceAsWritten(query, c)
  }

  /** Without a similarity, the score lies in [0, 1] and is 0 exactly when no query term
      occurs in the row's text and the name does not hold the whole query. */
  lemma KeywordRelevanceProps(query: string, c: C.Company)
    requires !C.HasSimilarity(c)
    ensures 0.0 <= KeywordRelevance(query, c) <= 1.0
    ensures KeywordRelevance(query, c) == 0.0 <==>
      (forall t :: t in NonEmpty(Str.SplitWs(Str.Lower(query))) ==> !Str.Contains(RelevanceText(c), t))
      && !Str.Contains(Str.Lower(c.name), Str.Lower(query))
  {
    var text := RelevanceText(c);
    var terms := NonEmpty(Str.SplitWs(Str.Lower(query)));
    CS.WordHitsZero(text, terms);
    forall k | 0 <= k < |terms| ensures CS.MatchCount(text, terms[k]) == 0 <==> !Str.Contains(text, terms[k]) {
      CS.MatchCountProps(text, terms[k]);
    }
    forall t | t in terms ensures CS.MatchCount(text, t) == 0 <==> !Str.Contains(text, t) {
      CS.MatchCountProps(text, t);
    }
  }

  lemma {:induction false} WordHitsAtLeast(text: string, words: seq<string>, k: nat)
    requires k < |words|
    ensures CS.MatchCount(text, words[k]) <= CS.WordHits(text, words)
    decreases |words|
  {
    if k < |words| - 1 {
      WordHitsAtLeast(text, words[..|words| - 1], k);
    }
  }

  /** A text without the first letter of any non-empty term has no hits. */
  lemma {:induction false} NoHits(text: string, words: seq<string>, ch: char)
    requires forall j :: 0 <= j < |text| ==> text[j] != ch
    requires forall k :: 0 <= k < |words| ==> words[k] != "" && words[k][0] == ch
    ensures CS.WordHits(text, words) == 0
    decreases |words|
  {
    if words != [] {
      NoHits(text, words[..|words| - 1], ch);
      Str.IndexOfNoFirst(text, words[|words| - 1], 0);
    }
  }

  /** White space at the start of the query makes its first piece "", which
      `new RegExp("", "g")` matches at every position of the text: without a similarity,
      the as-written score is then at least 0.1 for each character of the text and one
      more, whatever the terms are. */
  lemma LeadingSpaceAsWritten(query: string, c: C.Company)
    requires !C.HasSimilarity(c) && |query| > 0 && Str.IsSpace(query[0])
    ensures KeywordRelevanceAsWritten(query, c) >= Cap(0.1 * (|RelevanceText(c)| + 1) as real)
  {
    var lq := Str.Lower(query);
    assert lq[0] == Str.LowerChar(query[0]) == query[0];
    assert Str.FirstSpace(lq, 0) == Some(0);
    var pieces := Str.SplitWs(lq);
    assert pieces[0] == "";
    WordHitsAtLeast(RelevanceText(c), pieces, 0);
  }

  const LEADING_SPACE_QUERY := " zzz"
  const UNRELATED := C.Company("1", "acme", None, None, None, None, None, None, "active", None)

  lemma UnrelatedText()
    ensures RelevanceText(UNRELATED) == "acme  "
    ensures Str.Lower(UNRELATED.name) == "acme"
  {
    assert UNRELATED.name + " " + "" + " " + "" == "acme  ";
    LowerPlain("acme  ");
    LowerPlain("acme");
  }

  /** No non-empty piece of " zzz" occurs in "acme  ", and "acme" does not hold " zzz". */
  lemma UnrelatedMisses()
    ensures forall t :: t in NonEmpty(Str.SplitWs(Str.Lower(LEADING_SPACE_QUERY))) ==> !Str.Contains(RelevanceText(UNRELATED), t)
    ensures !Str.Contains(Str.Lower(UNRELATED.name), Str.Lower(LEADING_SPACE_QUERY))
  {
    LowerPlain(LEADING_SPACE_QUERY);
    UnrelatedText();
    forall t | t in NonEmpty(Str.SplitWs(LEADING_SPACE_QUERY)) ensures !Str.Contains("acme  ", t) {
      PieceMisses(t);
    }
    Str.IndexOfNoFirst("acme", LEADING_SPACE_QUERY, 0);
  }

  /** A non-empty whitespace piece opens with a character of the text that is not a space. */
  lemma PieceHead(q: string, t: string)
    requires t in NonEmpty(Str.SplitWs(q))
    ensures |t| > 0 && t[0] in q && !Str.IsSpace(t[0])
  {
    var pieces := Str.SplitWs(q);
    CS.SplitWsChars(q);
    var j :| 0 <= j < |pieces| && pieces[j] == t;
    assert t[0] == pieces[j][0];
  }

  lemma PieceMisses(t: string)
    requires t in NonEmpty(Str.SplitWs(LEADING_SPACE_QUERY))
    ensures !Str.Contains("acme  ", t)
  {
    PieceHead(LEADING_SPACE_QUERY, t);
    ZNotInRow(t[0]);
    Str.IndexOfNoFirst("acme  ", t, 0);
  }

  lemma ZNotInRow(c: char)
    requires c in LEADING_SPACE_QUERY && !Str.IsSpace(c)
    ensures forall j :: 0 <= j < |"acme  "| ==> "acme  "[j] != c
  {
    assert c == 'z';
  }

  /** The row "acme" scores 0.7 for the query " zzz" although no term occurs in it;
      counting only the non-empty terms scores it 0. */
  lemma EmptyTermInflatesScore()
    ensures KeywordRelevanceAsWritten(LEADING_SPACE_QUERY, UNRELATED) >= 0.7
    ensures KeywordRelevance(LEADING_SPACE_QUERY, UNRELATED) == 0.0
  {
    UnrelatedText();
    LeadingSpaceAsWritten(LEADING_SPACE_QUERY, UNRELATED);
    UnrelatedMisses();
    KeywordRelevanceProps(LEADING_SPACE_QUERY, UNRELATED);
  }

  lemma LowerPlain(s: string)
    requires forall i :: 0 <= i < |s| ==> !Str.IsUpper(s[i])
    ensures Str.Lower(s) == s
  {
  }

  // ------------------------------------------------------------------ AI annotations

  const DEFAULT_CONTEXT := "Relevant match found based on search criteria."

  /** Line `k` of the reply, or the default text when there is no such line or it is empty. */
  function LineOr(lines: seq<string>, k: nat): string {
    if k < |lines| && lines[k] != "" then lines[k] else DEFAULT_CONTEXT
  }

  /** `enhanceResultsWithAI`: on a reply, result k gets line k of the reply as its context;
      when the call fails, every result is marked as not enhanced. */
  function Enhance(results: seq<Found>, reply: Result<Option<string>>): (r: seq<Found>)
    ensures |r| == |results|
    ensures forall k :: 0 <= k < |r| ==> r[k].company == results[k].company && r[k].searchMethod == results[k].searchMethod
    ensures reply.Err? ==> forall k :: 0 <= k < |r| ==> r[k] == results[k].(enhanced := Some(false))
    ensures reply.Ok? ==> forall k :: 0 <= k < |r| ==> r[k].enhanced == Some(true) && r[k].aiContext.Some?
  {
    if reply.Err? then seq(|results|, k requires 0 <= k < |results| => results[k].(enhanced := Some(false)))
    else
      var lines := Str.SplitOn(if reply.value.Some? then reply.value.value else "", '\n');
      seq(|results|, k requires 0 <= k < |results| =>
        results[k].(aiContext := Some(LineOr(lines, k)), enhanced := Some(true)))
  }

  /** A reply of one non-empty line per result, joined with newlines, gives each result
      its own line. */
  lemma EnhanceLines(results: seq<Found>, lines: seq<string>)
    requires |lines| == |results| > 0
    requires forall k :: 0 <= k < |lines| ==> lines[k] != "" && '\n' !in lines[k]
    ensures forall k :: 0 <= k < |results| ==>
      Enhance(results, Ok(Some(Str.Join(lines, "\n"))))[k].aiContext == Some(lines[k])
  {
    assert "\n" == ['\n'];
    Str.SplitOnJoin(lines, '\n');
  }

  // ------------------------------------------------------------------ analytics

  function RevenueSum(rs: seq<C.Company>): int
    decreases |rs|
  {
    if rs == [] then 0 else RevenueSum(rs[..|rs| - 1]) + C.OrZero(rs[|rs| - 1].revenue)
  }

  function EmployeeSum(rs: seq<C.Company>): int
    decreases |rs|
  {
    if rs == [] then 0 else EmployeeSum(rs[..|rs| - 1]) + C.OrZero(rs[|rs| - 1].employees)
  }

  /** `r.industry || "Unknown"`. */
  function IndustryName(c: C.Company): string {
    if Js.Filled(c.industry) then c.industry.value else "Unknown"
  }

  function IndustryNames(rs: seq<C.Company>): (r: seq<string>)
    ensures |r| == |rs|
    ensures forall k :: 0 <= k < |rs| ==> r[k] == IndustryName(rs[k])
  {
    seq(|rs|, k requires 0 <= k < |rs| => IndustryName(rs[k]))
  }

  /** `total / count` in exact arithmetic. */
  function Average(total: int, count: nat): (r: real)
    requires count > 0
    ensures r * count as real == total as real
  {
    total as real / count as real
  }

  datatype Analytics = Analytics(
    totalResults: nat, totalRevenue: int, totalEmployees: int, averageRevenue: real,
    averageEmployees: real, topIndustries: seq<Tally.Entry<string>>)

  /** `calculateSearchAnalytics`: nothing for no results; otherwise the totals, their
      averages and the five most frequent industries. */
  function SearchAnalytics(rs: seq<C.Company>): (r: Option<Analytics>)
    ensures r.None? <==> rs == []
  {
    if rs == [] then None
    else
      var revenue := RevenueSum(rs);
      var employees := EmployeeSum(rs);
      Some(Analytics(|rs|, revenue, employees, Average(revenue, |rs|), Average(employees, |rs|),
                     Tally.Top(Tally.Counts(IndustryNames(rs)), 5)))
  }

  /** For a non-empty list: the count is its length, the totals are the sums with missing
      values as 0, and the averages are those totals over the count. */
  lemma SearchAnalyticsTotals(rs: seq<C.Company>)
    requires rs != []
    ensures var a := SearchAnalytics(rs).value;
      && a.totalResults == |rs| && a.totalRevenue == RevenueSum(rs) && a.totalEmployees == EmployeeSum(rs)
      && a.averageRevenue == Average(a.totalRevenue, |rs|)
      && a.averageEmployees == Average(a.totalEmployees, |rs|)
  {
  }

  /** The top industries are at most five, in non-increasing count, each with its number
      of results, and none is ranked below an industry that is left out. */
  lemma TopIndustriesProps(names: seq<string>)
    ensures var top := Tally.Top(Tally.Counts(names), 5);
      && |top| <= 5
      && Ranking.SortedDesc(top, Tally.CountKey)
      && (forall e :: e in top ==> e.1 == Tally.Occ(names, e.0) && e.0 in names)
      && (forall e :: e in Tally.Counts(names) && e !in top ==> forall d :: d in top ==> d.1 >= e.1)
  {
    var c := Tally.Counts(names);
    Tally.TopProps(c, 5);
    forall e | e in Tally.Top(c, 5) ensures e.1 == Tally.Occ(names, e.0) && e.0 in names {
      assert e in multiset(c);
      var i :| 0 <= i < |c| && c[i] == e;
      Tally.CountsEntry(names, i);
    }
  }

  // ------------------------------------------------------------------ handler

  datatype Env = Env(supabaseUrl: Option<string>, serviceRoleKey: Option<string>, openaiKey: Option<string>)

  /** The first configuration error client set-up throws, if any. */
  function ConfigError(env: Env): Option<string> {
    if !Js.Filled(env.supabaseUrl) then Some("SUPABASE_URL environment variable is required")
    else if !Js.Filled(env.serviceRoleKey) then Some("SUPABASE_SERVICE_ROLE_KEY environment variable is required")
    else if env.openaiKey.None? || Str.Trim(env.openaiKey.value) == "" then Some("OPENAI_API_KEY not configured")
    else None
  }

  datatype Request = Request(
    verb: string, query: Option<string>, searchType: Option<string>, filters: Filters, limit: Option<nat>,
    includeAnalytics: bool, enhanceWithAI: bool)

  /** What the services answer: the `semantic_business_search` matches, the `companies`
      table as the keyword query sees it, and the annotation completion. */
  datatype Backend = Backend(matches: Option<seq<C.Company>>, table: Option<seq<C.Company>>,
                             enhancement: Result<Option<string>>)

  datatype Scored = Scored(found: Found, relevanceScore: real)

  datatype Body =
    | NoBody
    | Failure(error: string, details: Option<string>)
    | Success(query: string, searchType: string, methods: seq<string>, results: seq<Scored>, count: nat,
              analytics: Option<Analytics>, enhanced: bool)

  datatype Response = Response(status: nat, body: Body)

  predicate QueryGiven(req: Request) { req.query.Some? && Str.Trim(req.query.value) != "" }

  function LimitOf(req: Request): nat { if req.limit.Some? then req.limit.value else 10 }

  function TypeOf(req: Request): string { if req.searchType.Some? then req.searchType.value else "hybrid" }

  /** The results of the `switch`: "semantic", "keyword", and anything else as hybrid. */
  function Searched(req: Request, b: Backend): seq<Found> {
    var q := if req.query.Some? then req.query.value else "";
    match TypeOf(req)
    case "semantic" => SemanticSearch(b.matches, req.filters, LimitOf(req))
    case "keyword" => KeywordSearch(b.table, q, req.filters, LimitOf(req))
    case _ => Hybrid(q, b.matches, b.table, req.filters, LimitOf(req))
  }

  function Methods(searchType: string): seq<string> {
    match searchType
    case "semantic" => ["semantic"]
    case "keyword" => ["keyword"]
    case _ => ["semantic", "keyword"]
  }

  /** `results.map(...)`: every result is kept, in order, with its score added. A semantic
      result keeps its similarity as score; any other score lies in [0, 1], and is at least 0.5
      when the company's name holds the query. */
  function Scores(query: string, rs: seq<Found>): (r: seq<Scored>)
    ensures |r| == |rs|
    ensures forall k :: 0 <= k < |rs| ==> r[k].found == rs[k]
    ensures forall k :: 0 <= k < |rs| && C.HasSimilarity(rs[k].company) ==>
      r[k].relevanceScore == rs[k].company.similarity.value
    ensures forall k :: 0 <= k < |rs| && !C.HasSimilarity(rs[k].company) ==>
      0.0 <= r[k].relevanceScore <= 1.0
    ensures forall k :: (0 <= k < |rs| && !C.HasSimilarity(rs[k].company)
      && Str.Contains(Str.Lower(rs[k].company.name), Str.Lower(query))) ==> r[k].relevanceScore >= 0.5
  {
    seq(|rs|, k requires 0 <= k < |rs| => Scored(rs[k], RelevanceScore(query, rs[k].company)))
  }

  /** The success body for a valid request. */
  function Answer(req: Request, b: Backend): Body
    requires QueryGiven(req)
  {
    var found := Searched(req, b);
    var results := if req.enhanceWithAI && found != [] then Enhance(found, b.enhancement) else found;
    Success(req.query.value, TypeOf(req), Methods(TypeOf(req)), Scores(req.query.value, results), |results|,
            if req.includeAnalytics then SearchAnalytics(Companies(results)) else None, req.enhanceWithAI)
  }

  /** The hybrid branch as the handler runs it. */
  method RunHybrid(query: string, matches: Option<seq<C.Company>>, table: Option<seq<C.Company>>, f: Filters, limit: nat)
    returns (results: seq<Found>)
    ensures results == Hybrid(query, matches, table, f, limit)
  {
    var semanticResults := SemanticSearch(matches, f, SemanticShare(limit));
    var keywordResults := KeywordSearch(table, query, f, KeywordShare(limit));
    var combined := semanticResults + keywordResults;
    var unique := Dedupe.Run(combined, FoundId);
    results := Ranking.Take(unique, limit);
  }

  /** `handler`: OPTIONS, then the method, the clients' configuration and the query are
      checked in that order; a valid request is answered with the search results. */
  method Handle(req: Request, env: Env, b: Backend) returns (r: Response)
    ensures req.verb == "OPTIONS" ==> r == Response(200, NoBody)
    ensures req.verb != "OPTIONS" && req.verb != "POST" ==> r == Response(405, Failure("Method not allowed", None))
    ensures req.verb == "POST" && ConfigError(env).Some? ==>
      r == Response(500, Failure("Service configuration error", ConfigError(env)))
    ensures req.verb == "POST" && ConfigError(env).None? && !QueryGiven(req) ==>
      r == Response(400, Failure("Query is required", None))
    ensures req.verb == "POST" && ConfigError(env).None? && QueryGiven(req) ==> r == Response(200, Answer(req, b))
  {
    if req.verb == "OPTIONS" {
      return Response(200, NoBody);
    }
    if req.verb != "POST" {
      return Response(405, Failure("Method not allowed", None));
    }
    var configError := ConfigError(env);
    if configError.Some? {
      return Response(500, Failure("Service configuration error", configError));
    }
    if !QueryGiven(req) {
      return Response(400, Failure("Query is required", None));
    }
    var query := req.query.value;
    var limit := LimitOf(req);
    var results: seq<Found> := [];
    match TypeOf(req) {
      case "semantic" => results := SemanticSearch(b.matches, req.filters, limit);
      case "keyword" => results := KeywordSearch(b.table, query, req.filters, limit);
      case _ => results := RunHybrid(query, b.matches, b.table, req.filters, limit);
    }
    if req.enhanceWithAI && |results| > 0 {
      results := Enhance(results, b.enhancement);
    }
    var analytics := if req.includeAnalytics then SearchAnalytics(Companies(results)) else None;
    r := Response(200, Success(query, TypeOf(req), Methods(TypeOf(req)), Scores(query, results), |results|,
                               analytics, req.enhanceWithAI));
  }

  /** A successful answer holds at most `limit` results; hybrid results have distinct ids;
      analytics are present exactly when asked for and there are results. */
  lemma AnswerProps(req: Request, b: Backend)
    requires QueryGiven(req)
    ensures Answer(req, b).count == |Answer(req, b).results| <= LimitOf(req)
    ensures TypeOf(req) !in ["semantic", "keyword"] ==>
      forall i, j :: 0 <= i < j < |Answer(req, b).results| ==>
        Answer(req, b).results[i].found.company.id != Answer(req, b).results[j].found.company.id
    ensures Answer(req, b).analytics.Some? <==> req.includeAnalytics && Answer(req, b).results != []
  {
    AnswerBounded(req, b);
    if TypeOf(req) !in ["semantic", "keyword"] {
      AnswerDistinct(req, b);
    }
  }

  /** Whichever search runs, it returns at most `limit` results. */
  lemma SearchedBounded(req: Request, b: Backend)
    ensures |Searched(req, b)| <= LimitOf(req)
  {
    var q := if req.query.Some? then req.query.value else "";
    var l := LimitOf(req);
    match TypeOf(req)
    case "semantic" => SemanticSearchProps(b.matches, req.filters, l);
    case "keyword" => KeywordSearchProps(b.table, q, req.filters, l);
    case _ => HybridProps(q, b.matches, b.table, req.filters, l);
  }

  /** The count and the bound of `AnswerProps`, and its analytics. */
  lemma AnswerBounded(req: Request, b: Backend)
    requires QueryGiven(req)
    ensures Answer(req, b).count == |Answer(req, b).results| <= LimitOf(req)
    ensures Answer(req, b).analytics.Some? <==> req.includeAnalytics && Answer(req, b).results != []
  {
    SearchedBounded(req, b);
    var found := Searched(req, b);
    var results := if req.enhanceWithAI && found != [] then Enhance(found, b.enhancement) else found;
    assert |results| == |found|;
    assert Answer(req, b).results == Scores(req.query.value, results);
    assert results == [] <==> Companies(results) == [];
  }

  /** The distinct ids of `AnswerProps`. */
  lemma AnswerDistinct(req: Request, b: Backend)
    requires QueryGiven(req) && TypeOf(req) !in ["semantic", "keyword"]
    ensures forall i, j :: 0 <= i < j < |Answer(req, b).results| ==>
        Answer(req, b).results[i].found.company.id != Answer(req, b).results[j].found.company.id
  {
    var q := req.query.value;
    var l := LimitOf(req);
    HybridProps(q, b.matches, b.table, req.filters, l);
    var found := Searched(req, b);
    var results := if req.enhanceWithAI && found != [] then Enhance(found, b.enhancement) else found;
    forall i, j | 0 <= i < j < |results| ensures results[i].company.id != results[j].company.id {
      assert FoundId(found[i]) != FoundId(found[j]);
    }
  }
}
