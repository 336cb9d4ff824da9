/** The `/api/ai-search` endpoint: the model reads the query's intent, semantic matches
    take about 70% of the limit, a keyword query over the intent fills the remaining slots,
    the merged rows are de-duplicated by id and ranked, the AI may annotate them, and the
    search is logged. What the models and the database answer, the elapsed time and the
    clock are parameters. */
module AiSearch {
  import opened Wrappers
  import Str
  import Js
  import Ranking
  import Dedupe
  import Seqs
  import C = Companies
  import US = UnifiedSearch
  import DS = DebugSearch

  // ------------------------------------------------------------------ intent

  datatype IntentFilters = IntentFilters(
    minRevenue: Option<int>, maxRevenue: Option<int>, minEmployees: Option<int>, maxEmployees: Option<int>)

  /** The parsed intent object; a field the model left out is None. */
  datatype Intent = Intent(
    industries: Option<seq<string>>, locations: Option<seq<string>>, keywords: Option<seq<string>>,
    filters: Option<IntentFilters>)

  /** `{}`: what a reply without content parses to. */
  const NO_INTENT := Intent(None, None, None, None)

  /** What the intent completion gave: a failed call, a reply without content, content that
      is a JSON object, or content `JSON.parse` rejects. */
  datatype IntentReply = CallFailed(error: string) | NoContent | Parsed(intent: Intent) | Unparsable(error: string)

  /** `analyzeSearchIntent`: every failure comes back wrapped in one message. */
  function AnalyzeSearchIntent(reply: IntentReply): (r: Result<Intent>)
    ensures r.Ok? <==> reply.NoContent? || reply.Parsed?
    ensures reply.NoContent? ==> r.value == NO_INTENT
    ensures reply.Parsed? ==> r.value == reply.intent
    ensures r.Err? ==> Str.StartsWith(r.msg, "Failed to analyze search intent: ")
  {
    match reply
    case CallFailed(e) => Err("Failed to analyze search intent: " + e)
    case Unparsable(e) => Err("Failed to analyze search intent: " + e)
    case NoContent => Ok(NO_INTENT)
    case Parsed(intent) => Ok(intent)
  }

  // ------------------------------------------------------------------ results

  datatype Annotation = Annotation(relevance: string, aiContext: Option<string>)

  /** A result row with the search that found it and, once enhanced, its annotation. */
  datatype Hit = Hit(company: C.Company, searchType: string, annotation: Option<Annotation>)

  function HitId(h: Hit): string { h.company.id }

  function Tag(rows: seq<C.Company>, searchType: string): (r: seq<Hit>)
    ensures |r| == |rows|
    ensures forall k :: 0 <= k < |rows| ==> r[k] == Hit(rows[k], searchType, None)
  {
    seq(|rows|, k requires 0 <= k < |rows| => Hit(rows[k], searchType, None))
  }

  /** `performSemanticSearch`: the database function's matches (None when the embedding
      call or the function failed, which gives no results), at most `limit` of them. */
  function SemanticSearch(matches: Option<seq<C.Company>>, limit: nat): seq<Hit> {
    if matches.None? then [] else Tag(Ranking.Take(matches.value, limit), "semantic")
  }

  /** `Math.ceil(limit * 0.7)`, the semantic share. */
  function SemanticLimit(limit: nat): nat { US.SemanticShare(limit) }

  /** The slots left for the keyword search. */
  function KeywordLimit(limit: nat, semanticCount: nat): int {
    if semanticCount > 0 then limit - semanticCount else limit
  }

  /** The semantic search never takes more than `limit`, so the keyword limit is never
      negative, and the two add up to `limit` once there were semantic hits. */
  lemma LimitSplit(matches: Option<seq<C.Company>>, limit: nat)
    ensures var s := |SemanticSearch(matches, SemanticLimit(limit))|;
      && s <= limit
      && 0 <= KeywordLimit(limit, s) <= limit
      && (s > 0 ==> s + KeywordLimit(limit, s) == limit)
      && (s == 0 ==> KeywordLimit(limit, s) == limit)
  {
    US.SharesCover(limit);
  }

  /** The filters of `performKeywordSearch` on one row: active, and every intent list that
      is non-empty and every truthy bound must match. */
  predicate IntentMatch(intent: Intent, c: C.Company) {
    && c.status == "active"
    && (C.Given(intent.industries) ==> C.AnyMentions([c.industry], intent.industries.value))
    && (C.Given(intent.locations) ==> C.AnyMentions([c.description, c.headquarters], intent.locations.value))
    && (C.Given(intent.keywords) ==> C.AnyMentions([Some(c.name), c.description], intent.keywords.value))
    && (intent.filters.Some? ==> BoundsMatch(intent.filters.value, c))
  }

  predicate BoundsMatch(f: IntentFilters, c: C.Company) {
    && (Js.Nonzero(f.minRevenue) ==> C.AtLeast(c.revenue, f.minRevenue.value))
    && (Js.Nonzero(f.maxRevenue) ==> C.AtMost(c.revenue, f.maxRevenue.value))
    && (Js.Nonzero(f.minEmployees) ==> C.AtLeast(c.employees, f.minEmployees.value))
    && (Js.Nonzero(f.maxEmployees) ==> C.AtMost(c.employees, f.maxEmployees.value))
  }

  /** `performKeywordSearch` over the `companies` table: a database error is rethrown;
      otherwise the matching rows, highest revenue first, cut to `limit`. */
  function KeywordSearch(table: Result<seq<C.Company>>, intent: Intent, limit: nat): (r: Result<seq<Hit>>)
    ensures r.Err? <==> table.Err?
    ensures r.Err? ==> r.msg == table.msg
  {
    if table.Err? then Err(table.msg)
    else Ok(Tag(Ranking.Take(C.ByRevenue(Seqs.Where(table.value, c => IntentMatch(intent, c))), limit), "keyword"))
  }

  /** The company rows of a keyword search: at most `limit` matching rows of the table,
      highest revenue first; a matching row left out ranks no higher than any row kept,
      and only when `limit` rows were kept. */
  lemma KeywordRows(table: seq<C.Company>, intent: Intent, limit: nat)
    ensures var t := Ranking.Take(C.ByRevenue(Seqs.Where(table, c => IntentMatch(intent, c))), limit);
      && |t| <= limit
      && (forall x :: x in t ==> x in table && IntentMatch(intent, x))
      && (forall i, j :: 0 <= i < j < |t| ==> C.RevenueFirst(t[i], t[j]))
      && (forall x :: x in table && IntentMatch(intent, x) && x !in t ==>
            |t| == limit && forall d :: d in t ==> C.RevenueFirst(d, x))
  {
    var rows := Seqs.Where(table, c => IntentMatch(intent, c));
    var sorted := C.ByRevenue(rows);
    var t := Ranking.Take(sorted, limit);
    C.ByRevenueProps(rows);
    C.RevenueFirstTotal();
    Ranking.SortByTakeBest(rows, C.RevenueFirst, limit);
    forall x | x in t ensures x in table && IntentMatch(intent, x) {
      assert x in multiset(sorted);
    }
    forall x | x in table && IntentMatch(intent, x) && x !in t ensures |t| == limit {
      assert x in multiset(sorted);
    }
  }

  /** The rows of a successful keyword search: those of `KeywordRows`, each tagged
      "keyword" with no annotation. */
  lemma KeywordSearchProps(table: Result<seq<C.Company>>, intent: Intent, limit: nat)
    requires table.Ok?
    ensures var r := KeywordSearch(table, intent, limit).value;
      && |r| <= limit
      && (forall k :: 0 <= k < |r| ==> r[k].searchType == "keyword" && r[k].annotation.None?)
      && (forall k :: 0 <= k < |r| ==> r[k].company in table.value && IntentMatch(intent, r[k].company))
      && (forall i, j :: 0 <= i < j < |r| ==> C.RevenueFirst(r[i].company, r[j].company))
      && (forall c :: c in table.value && IntentMatch(intent, c) && (forall k :: 0 <= k < |r| ==> r[k].company != c) ==>
            |r| == limit && forall k :: 0 <= k < |r| ==> C.RevenueFirst(r[k].company, c))
  {
    var t := Ranking.Take(C.ByRevenue(Seqs.Where(table.value, c => IntentMatch(intent, c))), limit);
    var r := KeywordSearch(table, intent, limit).value;
    assert r == Tag(t, "keyword");
    KeywordRows(table.value, intent, limit);
    forall k | 0 <= k < |r| ensures r[k].company in table.value && IntentMatch(intent, r[k].company) {
      assert r[k].company == t[k] && t[k] in t;
    }
    forall c | c in table.value && IntentMatch(intent, c) && (forall k :: 0 <= k < |r| ==> r[k].company != c)
      ensures |r| == limit && forall k :: 0 <= k < |r| ==> C.RevenueFirst(r[k].company, c)
    {
      forall k | 0 <= k < |t| ensures t[k] != c {
        assert r[k].company == t[k];
      }
      assert c !in t;
      forall k | 0 <= k < |r| ensures C.RevenueFirst(r[k].company, c) {
        assert r[k].company == t[k] && t[k] in t;
      }
    }
  }

  /** `b.similarity || b.revenue || 0`. */
  function Score(h: Hit): real {
    if C.HasSimilarity(h.company) then h.company.similarity.value
    else if Js.Nonzero(h.company.revenue) then h.company.revenue.value as real
    else 0.0
  }

  /** The comparator `(a, b) => score(b) - score(a)`: a goes first when it scores at least
      as high. */
  predicate ScoreFirst(a: Hit, b: Hit) { Score(a) >= Score(b) }

  lemma ScoreFirstTotal()
    ensures Ranking.TotalPreorder(ScoreFirst)
  {
  }

  /** The merged rows: de-duplicated by id, ranked by score, cut to `limit`. */
  function Rank(all: seq<Hit>, limit: nat): seq<Hit> {
    Ranking.Take(Ranking.SortBy(Dedupe.ByKey(all, HitId), ScoreFirst), limit)
  }

  /** `performSmartSearch` as a function of what the two searches answer; the keyword
      search only runs, and can only fail, when there are slots left for it. */
  function SmartSearch(intent: Intent, limit: nat, matches: Option<seq<C.Company>>,
                       table: Result<seq<C.Company>>): Result<seq<Hit>> {
    var semantic := SemanticSearch(matches, SemanticLimit(limit));
    var keywordLimit := KeywordLimit(limit, |semantic|);
    if keywordLimit > 0 then
      match KeywordSearch(table, intent, keywordLimit as nat)
      case Err(e) => Err(e)
      case Ok(keyword) => Ok(Rank(semantic + keyword, limit))
    else Ok(Rank(semantic, limit))
  }

  /** The steps of `performSmartSearch`, with the Set-driven `deduplicateResults`. */
  method PerformSmartSearch(intent: Intent, limit: nat, matches: Option<seq<C.Company>>,
                            table: Result<seq<C.Company>>) returns (r: Result<seq<Hit>>)
    ensures r == SmartSearch(intent, limit, matches, table)
  {
    var semanticResults := SemanticSearch(matches, SemanticLimit(limit));
    var keywordLimit := if |semanticResults| > 0 then limit - |semanticResults| else limit;
    assert keywordLimit == KeywordLimit(limit, |semanticResults|);
    var keywordResults: seq<Hit> := [];
    if keywordLimit > 0 {
      var keyword := KeywordSearch(table, intent, keywordLimit as nat);
      if keyword.Err? {
        return Err(keyword.msg);
      }
      keywordResults := keyword.value;
    }
    var allResults := semanticResults + keywordResults;
    assert keywordLimit <= 0 ==> allResults == semanticResults;
    var uniqueResults := Dedupe.Run(allResults, HitId);
    r := Ok(Ranking.Take(Ranking.SortBy(uniqueResults, ScoreFirst), limit));
    assert r == Ok(Rank(allResults, limit));
  }

  /** The ranked list holds at most `limit` rows, in non-increasing score, with distinct
      ids, each either a semantic match or an active row matching the intent. */
  lemma RankProps(all: seq<Hit>, limit: nat)
    ensures var r := Rank(all, limit);
      && |r| <= limit
      && Ranking.SortedBy(r, ScoreFirst)
      && Dedupe.DistinctKeys(r, HitId)
      && (forall h :: h in r ==> h in all)
  {
    var u := Dedupe.ByKey(all, HitId);
    Dedupe.ByKeyProps(all, HitId);
    var sorted := Ranking.SortBy(u, ScoreFirst);
    ScoreFirstTotal();
    Ranking.SortBySorted(u, ScoreFirst);
    Dedupe.SortByDistinct(u, ScoreFirst, HitId);
    var r := Rank(all, limit);
    assert r == sorted[..|r|];
    forall i, j | 0 <= i < j < |r| ensures ScoreFirst(r[i], r[j]) && HitId(r[i]) != HitId(r[j]) {
      assert r[i] == sorted[i] && r[j] == sorted[j];
    }
    forall h | h in r ensures h in all {
      US.TakeIn(sorted, limit, h);
      assert h in multiset(sorted);
      Dedupe.SubseqIn(u, all, h);
    }
  }

  predicate Origin(h: Hit, intent: Intent, matches: Option<seq<C.Company>>, table: Result<seq<C.Company>>) {
    || (h.searchType == "semantic" && matches.Some? && h.company in matches.value)
    || (h.searchType == "keyword" && table.Ok? && h.company in table.value && IntentMatch(intent, h.company))
  }

  lemma SemanticOrigin(h: Hit, intent: Intent, matches: Option<seq<C.Company>>, table: Result<seq<C.Company>>, n: nat)
    requires h in SemanticSearch(matches, n)
    ensures Origin(h, intent, matches, table)
  {
    var semantic := SemanticSearch(matches, n);
    var k :| 0 <= k < |semantic| && semantic[k] == h;
    US.TakeIn(matches.value, n, h.company);
  }

  lemma KeywordOrigin(h: Hit, intent: Intent, matches: Option<seq<C.Company>>, table: Result<seq<C.Company>>, n: nat)
    requires table.Ok? && h in KeywordSearch(table, intent, n).value
    ensures Origin(h, intent, matches, table)
  {
    var keyword := KeywordSearch(table, intent, n).value;
    var k :| 0 <= k < |keyword| && keyword[k] == h;
    KeywordSearchProps(table, intent, n);
    assert h.searchType == "keyword" && h.company in table.value && IntentMatch(intent, h.company);
  }

  /** The hits a successful smart search ranked. */
  lemma SmartSearchRanks(intent: Intent, limit: nat, matches: Option<seq<C.Company>>,
                         table: Result<seq<C.Company>>) returns (all: seq<Hit>)
    requires SmartSearch(intent, limit, matches, table).Ok?
    ensures SmartSearch(intent, limit, matches, table).value == Rank(all, limit)
    ensures forall h :: h in all ==> Origin(h, intent, matches, table)
  {
    var semantic := SemanticSearch(matches, SemanticLimit(limit));
    var keywordLimit := KeywordLimit(limit, |semantic|);
    var keyword: seq<Hit> := [];
    if keywordLimit > 0 {
      keyword := KeywordSearch(table, intent, keywordLimit as nat).value;
    }
    all := semantic + keyword;
    assert keywordLimit <= 0 ==> all == semantic;
    forall h | h in all ensures Origin(h, intent, matches, table) {
      if h in semantic {
        SemanticOrigin(h, intent, matches, table, SemanticLimit(limit));
      } else {
        KeywordOrigin(h, intent, matches, table, keywordLimit as nat);
      }
    }
  }

  /** The smart search fails exactly when the keyword search ran and the database failed;
      otherwise it returns at most `limit` rows, ranked, with distinct ids, each a semantic
      match or a matching active row tagged as such. */
  lemma SmartSearchProps(intent: Intent, limit: nat, matches: Option<seq<C.Company>>,
                         table: Result<seq<C.Company>>)
    ensures var s := SmartSearch(intent, limit, matches, table);
      var semanticCount := |SemanticSearch(matches, SemanticLimit(limit))|;
      && (s.Err? <==> KeywordLimit(limit, semanticCount) > 0 && table.Err?)
      && (s.Ok? ==> (
            && |s.value| <= limit
            && Ranking.SortedBy(s.value, ScoreFirst)
            && Dedupe.DistinctKeys(s.value, HitId)
            && forall h :: h in s.value ==> Origin(h, intent, matches, table)))
  {
    var s := SmartSearch(intent, limit, matches, table);
    if s.Ok? {
      var all := SmartSearchRanks(intent, limit, matches, table);
      RankProps(all, limit);
    }
  }

  // ------------------------------------------------------------------ enhanceWithAI

  const RELEVANCE := "Match found based on industry and location criteria"

  /** `enhanceWithAI`: nothing to do for no results, the results unchanged when the
      completion failed, otherwise every result annotated with the completion's text. */
  function EnhanceWithAI(results: seq<Hit>, reply: Result<Option<string>>): (r: seq<Hit>)
    ensures |r| == |results|
    ensures results == [] || reply.Err? ==> r == results
    ensures results != [] && reply.Ok? ==> forall k :: 0 <= k < |r| ==>
      r[k] == results[k].(annotation := Some(Annotation(RELEVANCE, reply.value)))
  {
    if |results| == 0 || reply.Err? then results
    else seq(|results|, k requires 0 <= k < |results| => results[k].(annotation := Some(Annotation(RELEVANCE, reply.value))))
  }

  /** Annotating keeps every result's row, search type, id and score, so the ranking and the
      distinct ids survive it. */
  lemma EnhanceKeepsRanking(results: seq<Hit>, reply: Result<Option<string>>)
    requires Ranking.SortedBy(results, ScoreFirst) && Dedupe.DistinctKeys(results, HitId)
    ensures var r := EnhanceWithAI(results, reply);
      && (forall k :: 0 <= k < |r| ==> r[k].company == results[k].company && r[k].searchType == results[k].searchType)
      && Ranking.SortedBy(r, ScoreFirst)
      && Dedupe.DistinctKeys(r, HitId)
  {
    var r := EnhanceWithAI(results, reply);
    forall i, j | 0 <= i < j < |r| ensures ScoreFirst(r[i], r[j]) && HitId(r[i]) != HitId(r[j]) {
      assert r[i].company == results[i].company && r[j].company == results[j].company;
      assert ScoreFirst(results[i], results[j]);
    }
  }

  // ------------------------------------------------------------------ logging

  function CountType(hits: seq<Hit>, searchType: string): (n: nat)
    ensures n <= |hits|
    decreases |hits|
  {
    if hits == [] then 0
    else CountType(hits[..|hits| - 1], searchType) + (if hits[|hits| - 1].searchType == searchType then 1 else 0)
  }

  /** Semantic and keyword rows together are all rows, whenever every row came from one of
      the two searches. */
  lemma {:induction false} CountTypesCover(hits: seq<Hit>)
    requires forall h :: h in hits ==> h.searchType == "semantic" || h.searchType == "keyword"
    ensures CountType(hits, "semantic") + CountType(hits, "keyword") == |hits|
    decreases |hits|
  {
    if hits != [] {
      var init := hits[..|hits| - 1];
      assert forall h :: h in init ==> h in hits;
      assert hits[|hits| - 1] in hits;
      CountTypesCover(init);
    }
  }

  function Names(hits: seq<Hit>): (r: seq<string>)
    ensures |r| == |hits|
    ensures forall k :: 0 <= k < |hits| ==> r[k] == hits[k].company.name
  {
    seq(|hits|, k requires 0 <= k < |hits| => hits[k].company.name)
  }

  /** The activity `logSearchActivity` receives. */
  function ActivityOf(query: string, found: seq<Hit>, enhanced: seq<Hit>, elapsed: string, useAI: bool): DS.Activity {
    DS.Activity(Some(query), |enhanced|, Some(elapsed), if useAI then "ai-enhanced" else "basic",
                CountType(found, "semantic"), CountType(found, "keyword"), true,
                Names(Ranking.Take(enhanced, 3)), "")
  }

  // ------------------------------------------------------------------ handler

  datatype Env = Env(openaiKey: Option<string>, supabaseUrl: Option<string>, serviceRoleKey: Option<string>)

  /** The OpenAI key check: the trimmed key must be present and start with "sk-". */
  function KeyError(env: Env): (r: Option<string>)
    ensures r.None? <==> env.openaiKey.Some? && Str.StartsWith(Str.Trim(env.openaiKey.value), "sk-")
  {
    var key := if env.openaiKey.Some? then Some(Str.Trim(env.openaiKey.value)) else None;
    if !Js.Filled(key) then Some("OPENAI_API_KEY not configured in environment variables")
    else if !Str.StartsWith(key.value, "sk-") then Some("Invalid OpenAI key format")
    else None
  }

  /** The Supabase configuration check: URL first, then the service-role key, both
      checked before trimming. */
  function DatabaseError(env: Env): (r: Option<string>)
    ensures r.None? <==> Js.Filled(env.supabaseUrl) && Js.Filled(env.serviceRoleKey)
  {
    if !Js.Filled(env.supabaseUrl) then Some("SUPABASE_URL environment variable is required")
    else if !Js.Filled(env.serviceRoleKey) then Some("SUPABASE_SERVICE_ROLE_KEY environment variable is required")
    else None
  }

  datatype Request = Request(verb: string, query: Option<string>, limit: Option<nat>, useAI: Option<bool>)

  predicate QueryGiven(req: Request) { req.query.Some? && Str.Trim(req.query.value) != "" }

  function LimitOf(req: Request): nat { if req.limit.Some? then req.limit.value else 10 }

  predicate UseAI(req: Request) { req.useAI.None? || req.useAI.value }

  /** What the two models and the two database reads answer. */
  datatype Backend = Backend(
    intent: IntentReply, matches: Option<seq<C.Company>>, table: Result<seq<C.Company>>,
    enhancement: Result<Option<string>>)

  datatype Body =
    | NoBody
    | Failure(error: string, details: Option<string>)
    | Success(query: string, intent: Intent, results: seq<Hit>, count: nat, source: string, enhanced: bool)

  datatype Response = Response(status: nat, body: Body)

  /** The rows a successful search answers with, before and after enhancing. */
  function Found(req: Request, b: Backend): seq<Hit>
    requires AnalyzeSearchIntent(b.intent).Ok?
    requires SmartSearch(AnalyzeSearchIntent(b.intent).value, LimitOf(req), b.matches, b.table).Ok?
  {
    SmartSearch(AnalyzeSearchIntent(b.intent).value, LimitOf(req), b.matches, b.table).value
  }

  function Enhanced(req: Request, b: Backend): seq<Hit>
    requires AnalyzeSearchIntent(b.intent).Ok?
    requires SmartSearch(AnalyzeSearchIntent(b.intent).value, LimitOf(req), b.matches, b.table).Ok?
  {
    var found := Found(req, b);
    if UseAI(req) && |found| > 0 then EnhanceWithAI(found, b.enhancement) else found
  }

  /** `handler`: OPTIONS, then the OpenAI key, the database configuration, the method and
      the query are checked in that order; a failure of the intent analysis or of the
      keyword query is a 500 "Search failed"; a successful search is logged and answered. */
  method Handle(log: DS.SearchLog, req: Request, env: Env, b: Backend, elapsed: string, now: string)
    returns (r: Response)
    requires log.Valid()
    modifies log
    ensures log.Valid()
    ensures req.verb == "OPTIONS" ==> r == Response(200, NoBody)
    ensures req.verb != "OPTIONS" && KeyError(env).Some? ==>
      r == Response(500, Failure("AI service configuration error", KeyError(env)))
    ensures req.verb != "OPTIONS" && KeyError(env).None? && DatabaseError(env).Some? ==>
      r == Response(500, Failure("Database configuration error", DatabaseError(env)))
    ensures req.verb !in {"OPTIONS", "POST"} && KeyError(env).None? && DatabaseError(env).None? ==>
      r == Response(405, Failure("Method not allowed", None))
    ensures req.verb == "POST" && KeyError(env).None? && DatabaseError(env).None? && !QueryGiven(req) ==>
      r == Response(400, Failure("Query is required", None))
    ensures (req.verb == "POST" && KeyError(env).None? && DatabaseError(env).None? && QueryGiven(req)
      && AnalyzeSearchIntent(b.intent).Err?) ==>
      r == Response(500, Failure("Search failed", Some(AnalyzeSearchIntent(b.intent).msg)))
    ensures (req.verb == "POST" && KeyError(env).None? && DatabaseError(env).None? && QueryGiven(req)
      && AnalyzeSearchIntent(b.intent).Ok?
      && SmartSearch(AnalyzeSearchIntent(b.intent).value, LimitOf(req), b.matches, b.table).Err?) ==>
      r == Response(500, Failure("Search failed", Some(b.table.msg)))
    ensures r.status == 200 && r.body.Success? <==>
      req.verb == "POST" && KeyError(env).None? && DatabaseError(env).None? && QueryGiven(req)
      && AnalyzeSearchIntent(b.intent).Ok?
      && SmartSearch(AnalyzeSearchIntent(b.intent).value, LimitOf(req), b.matches, b.table).Ok?
    ensures r.body.Success? ==>
      && r.body == Success(req.query.value, AnalyzeSearchIntent(b.intent).value, Enhanced(req, b),
                           |Enhanced(req, b)|, "database", UseAI(req))
      && log.recentSearches == DS.Prepend(old(log.recentSearches),
           ActivityOf(req.query.value, Found(req, b), Enhanced(req, b), elapsed, UseAI(req)).(timestamp := now))
    ensures !r.body.Success? ==> log.recentSearches == old(log.recentSearches)
  {
    if req.verb == "OPTIONS" {
      return Response(200, NoBody);
    }
    var keyError := KeyError(env);
    if keyError.Some? {
      return Response(500, Failure("AI service configuration error", keyError));
    }
    var databaseError := DatabaseError(env);
    if databaseError.Some? {
      return Response(500, Failure("Database configuration error", databaseError));
    }
    if req.verb != "POST" {
      return Response(405, Failure("Method not allowed", None));
    }
    if !QueryGiven(req) {
      return Response(400, Failure("Query is required", None));
    }
    var query := req.query.value;
    var limit := LimitOf(req);
    var useAI := UseAI(req);
    var searchIntent := AnalyzeSearchIntent(b.intent);
    if searchIntent.Err? {
      return Response(500, Failure("Search failed", Some(searchIntent.msg)));
    }
    var searchResults := PerformSmartSearch(searchIntent.value, limit, b.matches, b.table);
    if searchResults.Err? {
      SmartSearchFailure(searchIntent.value, limit, b.matches, b.table);
      return Response(500, Failure("Search failed", Some(searchResults.msg)));
    }
    var enhancedResults := searchResults.value;
    if useAI && |searchResults.value| > 0 {
      enhancedResults := EnhanceWithAI(searchResults.value, b.enhancement);
    }
    log.LogSearchActivity(ActivityOf(query, searchResults.value, enhancedResults, elapsed, useAI), now);
    r := Response(200, Success(query, searchIntent.value, enhancedResults, |enhancedResults|, "database", useAI));
  }

  /** A failed smart search carries the database's message. */
  lemma SmartSearchFailure(intent: Intent, limit: nat, matches: Option<seq<C.Company>>, table: Result<seq<C.Company>>)
    requires SmartSearch(intent, limit, matches, table).Err?
    ensures table.Err? && SmartSearch(intent, limit, matches, table).msg == table.msg
  {
  }

  /** A successful answer holds at most `limit` distinct rows in non-increasing score, its
      count is their number, and the logged activity splits them into semantic and keyword
      rows. */
  lemma AnswerProps(req: Request, b: Backend, elapsed: string)
    requires AnalyzeSearchIntent(b.intent).Ok?
    requires SmartSearch(AnalyzeSearchIntent(b.intent).value, LimitOf(req), b.matches, b.table).Ok?
    requires QueryGiven(req)
    ensures var e := Enhanced(req, b);
      && |e| <= LimitOf(req)
      && Ranking.SortedBy(e, ScoreFirst)
      && Dedupe.DistinctKeys(e, HitId)
    ensures var a := ActivityOf(req.query.value, Found(req, b), Enhanced(req, b), elapsed, UseAI(req));
      a.semanticCount + a.keywordCount == a.resultsCount
  {
    var intent := AnalyzeSearchIntent(b.intent).value;
    SmartSearchProps(intent, LimitOf(req), b.matches, b.table);
    var found := Found(req, b);
    EnhanceKeepsRanking(found, b.enhancement);
    CountTypesCover(found);
  }
}
