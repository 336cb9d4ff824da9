/** The `/api/data-query` endpoint: companies, developments and economic indicators read
    with the request's filters, a combined market summary, an "intelligent" search over all
    three, and the count of what was returned. The tables' contents (or the error a read
    gives) are parameters; the clock is left out. */
module DataQuery {
  import opened Wrappers
  import Str
  import Js
  import Ranking
  import Seqs
  import Tally
  import C = Companies
  import US = UnifiedSearch

  datatype DateRange = DateRange(start: int, end: int)

  /** The request's `filters` object; a missing one is `NO_FILTERS`. */
  datatype Filters = Filters(
    industry: Option<string>, sector: Option<string>, companyId: Option<string>,
    dateRange: Option<DateRange>, limit: Option<nat>)

  const NO_FILTERS := Filters(None, None, None, None, None)

  /** A `developments` row with the joined company's name; `publishedAt` is the
      timestamp of `published_at`. */
  datatype Development = Development(
    title: Option<string>, content: Option<string>, source: Option<string>, companyId: Option<string>,
    publishedAt: Option<int>, category: Option<string>, companyName: Option<string>)

  /** An `economic_indicators` row; `date` is a timestamp. */
  datatype Indicator = Indicator(
    date: int, unemploymentRate: Option<real>, gdpGrowth: Option<real>, jobGrowth: Option<real>,
    retailSalesGrowth: Option<real>)

  /** What each table read answers. */
  datatype Database = Database(
    companies: Result<seq<C.Company>>, developments: Result<seq<Development>>, indicators: Result<seq<Indicator>>)

  /** `filters.limit ? filters.limit : d`. */
  function LimitOr(limit: Option<nat>, d: nat): nat {
    if limit.Some? && limit.value != 0 then limit.value else d
  }

  /** `query && query !== "all"`: the query narrows the read. */
  predicate Searching(query: Option<string>) { Js.Filled(query) && query.value != "all" }

  /** `.order(column, { ascending: false })`: PostgreSQL puts NULLs first when descending. */
  predicate DescNullsFirst(a: Option<int>, b: Option<int>) {
    a.None? || (b.Some? && a.value >= b.value)
  }

  /** A read: the matching rows in the given order, the first `limit` of them. */
  function Select<T(!new)>(rows: seq<T>, p: T -> bool, le: (T, T) -> bool, limit: nat): seq<T> {
    Ranking.Take(Ranking.SortBy(Seqs.Where(rows, p), le), limit)
  }

  /** A read returns at most `limit` matching rows of the table in order, as many as it can,
      and no matching row left out comes before one returned. */
  lemma SelectProps<T(!new)>(rows: seq<T>, p: T -> bool, le: (T, T) -> bool, limit: nat)
    requires Ranking.TotalPreorder(le)
    ensures var r := Select(rows, p, le, limit);
      && |r| == (if limit < |Seqs.Where(rows, p)| then limit else |Seqs.Where(rows, p)|)
      && Ranking.SortedBy(r, le)
      && (forall x :: x in r ==> x in rows && p(x))
      && (forall x :: x in rows && p(x) && x !in r ==> forall d :: d in r ==> le(d, x))
  {
    var w := Seqs.Where(rows, p);
    var sorted := Ranking.SortBy(w, le);
    Ranking.SortBySorted(w, le);
    Ranking.SortByTakeBest(w, le, limit);
    var r := Select(rows, p, le, limit);
    assert r == sorted[..|r|];
    forall x | x in r ensures x in rows && p(x) {
      assert x in multiset(sorted);
    }
  }

  // ------------------------------------------------------------------ companies

  /** The filters of `queryCompanies`: active, the industry and sector patterns, and the
      query in the name, description or industry. */
  predicate CompanyMatch(query: Option<string>, f: Filters, c: C.Company) {
    && c.status == "active"
    && (Js.Filled(f.industry) ==> C.Mentions(c.industry, f.industry.value))
    && (Js.Filled(f.sector) ==> C.Mentions(c.sector, f.sector.value))
    && (Searching(query) ==> C.AnyMentions([Some(c.name), c.description, c.industry], [query.value]))
  }

  predicate RevenueDesc(a: C.Company, b: C.Company) { DescNullsFirst(a.revenue, b.revenue) }

  lemma RevenueDescTotal()
    ensures Ranking.TotalPreorder(RevenueDesc)
  {
  }

  /** `queryCompanies`: 50 rows unless the filters give a limit; a read error is thrown. */
  function QueryCompanies(table: Result<seq<C.Company>>, query: Option<string>, f: Filters): (r: Result<seq<C.Company>>)
    ensures r.Err? <==> table.Err?
  {
    if table.Err? then Err(table.msg)
    else Ok(Select(table.value, c => CompanyMatch(query, f, c), RevenueDesc, LimitOr(f.limit, 50)))
  }

  lemma QueryCompaniesProps(table: Result<seq<C.Company>>, query: Option<string>, f: Filters)
    requires table.Ok?
    ensures var r := QueryCompanies(table, query, f).value;
      && |r| <= LimitOr(f.limit, 50)
      && Ranking.SortedBy(r, RevenueDesc)
      && (forall c :: c in r ==> c in table.value && CompanyMatch(query, f, c))
      && (forall c :: c in table.value && CompanyMatch(query, f, c) && c !in r ==> forall d :: d in r ==> RevenueDesc(d, c))
  {
    RevenueDescTotal();
    SelectProps(table.value, c => CompanyMatch(query, f, c), RevenueDesc, LimitOr(f.limit, 50));
  }

  // ------------------------------------------------------------------ developments

  /** The filters of `queryDevelopments`: the publication date in range, the company, and
      the query in the title, content or source. */
  predicate DevelopmentMatch(query: Option<string>, f: Filters, d: Development) {
    && (f.dateRange.Some? ==>
          d.publishedAt.Some? && f.dateRange.value.start <= d.publishedAt.value <= f.dateRange.value.end)
    && (Js.Filled(f.companyId) ==> d.companyId == f.companyId)
    && (Searching(query) ==> C.AnyMentions([d.title, d.content, d.source], [query.value]))
  }

  predicate NewestFirst(a: Development, b: Development) { DescNullsFirst(a.publishedAt, b.publishedAt) }

  lemma NewestFirstTotal()
    ensures Ranking.TotalPreorder(NewestFirst)
  {
  }

  /** `queryDevelopments`: 20 rows unless the filters give a limit. */
  function QueryDevelopments(table: Result<seq<Development>>, query: Option<string>, f: Filters): (r: Result<seq<Development>>)
    ensures r.Err? <==> table.Err?
  {
    if table.Err? then Err(table.msg)
    else Ok(Select(table.value, d => DevelopmentMatch(query, f, d), NewestFirst, LimitOr(f.limit, 20)))
  }

  lemma QueryDevelopmentsProps(table: Result<seq<Development>>, query: Option<string>, f: Filters)
    requires table.Ok?
    ensures var r := QueryDevelopments(table, query, f).value;
      && |r| <= LimitOr(f.limit, 20)
      && Ranking.SortedBy(r, NewestFirst)
      && (forall d :: d in r ==> d in table.value && DevelopmentMatch(query, f, d))
      && (forall d :: d in table.value && DevelopmentMatch(query, f, d) && d !in r ==> forall e :: e in r ==> NewestFirst(e, d))
  {
    NewestFirstTotal();
    SelectProps(table.value, d => DevelopmentMatch(query, f, d), NewestFirst, LimitOr(f.limit, 20));
  }

  // ------------------------------------------------------------------ indicators

  predicate IndicatorMatch(f: Filters, i: Indicator) {
    f.dateRange.Some? ==> f.dateRange.value.start <= i.date <= f.dateRange.value.end
  }

  predicate LatestFirst(a: Indicator, b: Indicator) { a.date >= b.date }

  lemma LatestFirstTotal()
    ensures Ranking.TotalPreorder(LatestFirst)
  {
  }

  /** `queryEconomicIndicators`: the last 12 unless the filters give a limit. */
  function QueryIndicators(table: Result<seq<Indicator>>, f: Filters): (r: Result<seq<Indicator>>)
    ensures r.Err? <==> table.Err?
  {
    if table.Err? then Err(table.msg)
    else Ok(Select(table.value, i => IndicatorMatch(f, i), LatestFirst, LimitOr(f.limit, 12)))
  }

  lemma QueryIndicatorsProps(table: Result<seq<Indicator>>, f: Filters)
    requires table.Ok?
    ensures var r := QueryIndicators(table, f).value;
      && |r| <= LimitOr(f.limit, 12)
      && Ranking.SortedBy(r, LatestFirst)
      && (forall i :: i in r ==> i in table.value && IndicatorMatch(f, i))
      && (forall i :: i in table.value && IndicatorMatch(f, i) && i !in r ==> forall j :: j in r ==> j.date >= i.date)
  {
    LatestFirstTotal();
    SelectProps(table.value, i => IndicatorMatch(f, i), LatestFirst, LimitOr(f.limit, 12));
  }

  // ------------------------------------------------------------------ market summary

  /** `getTopIndustries`: the five industries with most companies, "Unknown" for a
      company without one. */
  function GetTopIndustries(companies: seq<C.Company>): seq<Tally.Entry<string>> {
    Tally.Top(Tally.Counts(US.IndustryNames(companies)), 5)
  }

  /** At most five industries, in non-increasing count, each counted as often as it is a
      company's industry (or "Unknown"), and none left out has more companies. */
  lemma TopIndustriesOf(companies: seq<C.Company>)
    ensures var top := GetTopIndustries(companies);
      && |top| <= 5
      && Ranking.SortedDesc(top, Tally.CountKey)
      && (forall e :: e in top ==> e.1 == Tally.Occ(US.IndustryNames(companies), e.0))
      && (forall e :: e in top ==> e.0 == "Unknown" || exists k :: 0 <= k < |companies| && companies[k].industry == Some(e.0))
      && (forall e :: e in Tally.Counts(US.IndustryNames(companies)) && e !in top ==> forall d :: d in top ==> d.1 >= e.1)
  {
    var names := US.IndustryNames(companies);
    US.TopIndustriesProps(names);
    forall e | e in GetTopIndustries(companies)
      ensures e.0 == "Unknown" || exists k :: 0 <= k < |companies| && companies[k].industry == Some(e.0)
    {
      var k :| 0 <= k < |names| && names[k] == e.0;
      assert US.IndustryName(companies[k]) == e.0;
    }
  }

  /** One entry of `getRecentActivity`. */
  datatype Activity = Activity(title: Option<string>, company: Option<string>, date: int, category: Option<string>)

  function ActivityOf(d: Development): Activity {
    Activity(d.title, d.companyName, if d.publishedAt.Some? then d.publishedAt.value else 0, d.category)
  }

  function PublishedKey(d: Development): int { if d.publishedAt.Some? then d.publishedAt.value else 0 }

  function Dated(developments: seq<Development>): seq<Development> {
    Seqs.Where(developments, (d: Development) => d.publishedAt.Some?)
  }

  function Activities(ds: seq<Development>): (r: seq<Activity>)
    ensures |r| == |ds|
    ensures forall k :: 0 <= k < |ds| ==> r[k] == ActivityOf(ds[k])
  {
    seq(|ds|, k requires 0 <= k < |ds| => ActivityOf(ds[k]))
  }

  /** `getRecentActivity`: the three newest developments that have a date. */
  function GetRecentActivity(developments: seq<Development>): seq<Activity> {
    Activities(Ranking.TopBy(Dated(developments), PublishedKey, 3))
  }

  /** At most three entries, newest first, each a dated development, and no dated
      development left out is newer than one kept. */
  lemma RecentActivityProps(developments: seq<Development>)
    ensures var top := Ranking.TopBy(Dated(developments), PublishedKey, 3);
      && GetRecentActivity(developments) == Activities(top)
      && |top| <= 3
      && (forall d :: d in top ==> d in developments && d.publishedAt.Some?)
      && Ranking.SortedDesc(top, PublishedKey)
      && (forall d :: d in developments && d.publishedAt.Some? && d !in top ==>
            forall e :: e in top ==> e.publishedAt.value >= d.publishedAt.value)
  {
    var dated := Dated(developments);
    Ranking.TopByProps(dated, PublishedKey, 3);
    var top := Ranking.TopBy(dated, PublishedKey, 3);
    forall d | d in top ensures d in developments && d.publishedAt.Some? {
      assert d in multiset(dated);
    }
  }

  datatype Trends = Trends(unemploymentChange: real, gdpGrowth: Option<real>, jobGrowth: Option<real>,
                           retailSalesGrowth: Option<real>, trend: string)

  /** A NULL column used in arithmetic or a comparison counts as 0. */
  function Num(v: Option<real>): real { if v.Some? then v.value else 0.0 }

  /** `analyzeEconomicTrends` over the indicators, latest first; `{}` is None. */
  function AnalyzeEconomicTrends(indicators: seq<Indicator>): (r: Option<Trends>)
    ensures r.None? <==> |indicators| < 2
    ensures r.Some? ==> (r.value.trend == "positive" <==> Num(indicators[0].gdpGrowth) > 0.0)
    ensures r.Some? ==> (r.value.trend == "negative" <==> Num(indicators[0].gdpGrowth) <= 0.0)
    ensures r.Some? ==> r.value.unemploymentChange + Num(indicators[1].unemploymentRate) == Num(indicators[0].unemploymentRate)
  {
    if |indicators| < 2 then None
    else
      var latest := indicators[0];
      var previous := indicators[1];
      Some(Trends(Num(latest.unemploymentRate) - Num(previous.unemploymentRate), latest.gdpGrowth, latest.jobGrowth,
                  latest.retailSalesGrowth, if Num(latest.gdpGrowth) > 0.0 then "positive" else "negative"))
  }

  datatype Overview = Overview(totalCompanies: nat, totalDevelopments: nat, latestEconomicData: Option<Indicator>)

  datatype MarketSummary = MarketSummary(
    overview: Overview, topIndustries: seq<Tally.Entry<string>>, recentActivity: seq<Activity>,
    economicTrends: Option<Trends>)

  /** `generateMarketSummary` over the three lists the comprehensive query read. */
  function GenerateMarketSummary(companies: seq<C.Company>, developments: seq<Development>,
                                 indicators: seq<Indicator>): (m: MarketSummary)
    ensures m.overview.totalCompanies == |companies| && m.overview.totalDevelopments == |developments|
    ensures m.overview.latestEconomicData.Some? <==> indicators != []
    ensures indicators != [] ==> m.overview.latestEconomicData.value == indicators[0]
  {
    MarketSummary(Overview(|companies|, |developments|, if |indicators| > 0 then Some(indicators[0]) else None),
                  GetTopIndustries(companies), GetRecentActivity(developments), AnalyzeEconomicTrends(indicators))
  }

  // ------------------------------------------------------------------ intelligent search

  datatype TopMatch = TopMatch(kind: string, caption: Option<string>, relevance: real)

  datatype Relevance = Relevance(totalResults: nat, queryTerms: seq<string>, context: Option<string>,
                                 topMatches: seq<TopMatch>)

  datatype SearchResults = SearchResults(companies: seq<C.Company>, developments: seq<Development>,
                                         economic: seq<Indicator>, relevance: Relevance)

  /** The words that make the search read the economic indicators too. */
  predicate EconomicQuery(query: string) {
    var q := Str.Lower(query);
    Str.Contains(q, "economic") || Str.Contains(q, "gdp") || Str.Contains(q, "unemployment") || Str.Contains(q, "growth")
  }

  /** `query.toLowerCase()` on a missing query. */
  const MISSING_QUERY := "Cannot read properties of undefined (reading 'toLowerCase')"

  function CompanyMatches(companies: seq<C.Company>): (r: seq<TopMatch>)
    ensures |r| == |companies|
    ensures forall k :: 0 <= k < |companies| ==> r[k] == TopMatch("company", Some(companies[k].name), 0.9)
  {
    seq(|companies|, k requires 0 <= k < |companies| => TopMatch("company", Some(companies[k].name), 0.9))
  }

  function DevelopmentMatches(developments: seq<Development>): (r: seq<TopMatch>)
    ensures |r| == |developments|
    ensures forall k :: 0 <= k < |developments| ==> r[k] == TopMatch("development", developments[k].title, 0.8)
  {
    seq(|developments|, k requires 0 <= k < |developments| => TopMatch("development", developments[k].title, 0.8))
  }

  /** `performIntelligentSearch`: five companies and five developments, three indicators
      when the query is about the economy, and the relevance block. */
  function PerformIntelligentSearch(db: Database, query: Option<string>, f: Filters, context: Option<string>)
    : Result<SearchResults>
  {
    match QueryCompanies(db.companies, query, f.(limit := Some(5)))
    case Err(e) => Err(e)
    case Ok(companies) =>
      match QueryDevelopments(db.developments, query, f.(limit := Some(5)))
      case Err(e) => Err(e)
      case Ok(developments) =>
        if query.None? then Err(MISSING_QUERY)
        else
          var economic := if EconomicQuery(query.value) then QueryIndicators(db.indicators, f.(limit := Some(3))) else Ok([]);
          match economic
          case Err(e) => Err(e)
          case Ok(indicators) =>
            Ok(SearchResults(companies, developments, indicators,
                             Relevance(|companies| + |developments| + |indicators|, Str.SplitOn(Str.Lower(query.value), ' '),
                                       context,
                                       CompanyMatches(Ranking.Take(companies, 3)) + DevelopmentMatches(Ranking.Take(developments, 3)))))
  }

  /** The top matches: up to three companies, then up to three developments. */
  lemma TopMatchesKinds(cs: seq<C.Company>, ds: seq<Development>)
    ensures var m := CompanyMatches(Ranking.Take(cs, 3)) + DevelopmentMatches(Ranking.Take(ds, 3));
      && |m| <= 6
      && forall k :: 0 <= k < |m| ==> (m[k].kind == "company" <==> k < (if |cs| < 3 then |cs| else 3))
  {
    var a := CompanyMatches(Ranking.Take(cs, 3));
    var m := a + DevelopmentMatches(Ranking.Take(ds, 3));
    forall k | 0 <= k < |m| ensures m[k].kind == "company" <==> k < |a| {
      if k >= |a| {
        assert m[k].kind == "development";
        assert "development"[0] != "company"[0];
      }
    }
  }

  /** The search reads at most five companies, five developments and three indicators,
      reads indicators only for an economic query, counts every row it read, and lists at
      most six top matches, companies first. */
  lemma IntelligentSearchProps(db: Database, query: Option<string>, f: Filters, context: Option<string>)
    requires PerformIntelligentSearch(db, query, f, context).Ok?
    ensures var s := PerformIntelligentSearch(db, query, f, context).value;
      && query.Some?
      && |s.companies| <= 5 && |s.developments| <= 5 && |s.economic| <= 3
      && (!EconomicQuery(query.value) ==> s.economic == [])
      && s.relevance.totalResults == |s.companies| + |s.developments| + |s.economic|
      && |s.relevance.topMatches| <= 6
      && (forall k :: 0 <= k < |s.relevance.topMatches| ==>
            (s.relevance.topMatches[k].kind == "company" <==> k < (if |s.companies| < 3 then |s.companies| else 3)))
  {
    var fc := f.(limit := Some(5));
    QueryCompaniesProps(db.companies, query, fc);
    QueryDevelopmentsProps(db.developments, query, fc);
    var cs := QueryCompanies(db.companies, query, fc).value;
    var ds := QueryDevelopments(db.developments, query, fc).value;
    TopMatchesKinds(cs, ds);
    if EconomicQuery(query.value) {
      QueryIndicatorsProps(db.indicators, f.(limit := Some(3)));
    }
  }

  // ------------------------------------------------------------------ dispatch

  /** The `results` object: the lists a query type fills. */
  datatype Data = Data(
    companies: Option<seq<C.Company>>, developments: Option<seq<Development>>, economicIndicators: Option<seq<Indicator>>,
    marketSummary: Option<MarketSummary>, searchResults: Option<SearchResults>)

  const NO_DATA := Data(None, None, None, None, None)

  /** `fetchBusinessData`: dispatch on the query type; any read's error, a missing search
      query and an unknown type are thrown. */
  function FetchBusinessData(db: Database, query: Option<string>, queryType: string, f: Filters,
                             context: Option<string>): Result<Data> {
    match queryType
    case "companies" =>
      (match QueryCompanies(db.companies, query, f)
       case Err(e) => Err(e)
       case Ok(cs) => Ok(NO_DATA.(companies := Some(cs))))
    case "developments" =>
      (match QueryDevelopments(db.developments, query, f)
       case Err(e) => Err(e)
       case Ok(ds) => Ok(NO_DATA.(developments := Some(ds))))
    case "economic" =>
      (match QueryIndicators(db.indicators, f)
       case Err(e) => Err(e)
       case Ok(inds) => Ok(NO_DATA.(economicIndicators := Some(inds))))
    case "comprehensive" =>
      (match QueryCompanies(db.companies, query, f)
       case Err(e) => Err(e)
       case Ok(cs) =>
         match QueryDevelopments(db.developments, query, f)
         case Err(e) => Err(e)
         case Ok(ds) =>
           match QueryIndicators(db.indicators, f)
           case Err(e) => Err(e)
           case Ok(inds) => Ok(Data(Some(cs), Some(ds), Some(inds), Some(GenerateMarketSummary(cs, ds, inds)), None)))
    case "search" =>
      (match PerformIntelligentSearch(db, query, f, context)
       case Err(e) => Err(e)
       case Ok(s) => Ok(NO_DATA.(searchResults := Some(s))))
    case _ => Err("Unknown query type: " + queryType)
  }

  /** Only the five query types succeed, and each fills exactly its own lists. */
  lemma FetchShape(db: Database, query: Option<string>, queryType: string, f: Filters, context: Option<string>)
    ensures queryType !in {"companies", "developments", "economic", "comprehensive", "search"} ==>
      FetchBusinessData(db, query, queryType, f, context) == Err("Unknown query type: " + queryType)
    ensures var r := FetchBusinessData(db, query, queryType, f, context);
      r.Ok? ==>
        && (r.value.companies.Some? <==> queryType in {"companies", "comprehensive"})
        && (r.value.developments.Some? <==> queryType in {"developments", "comprehensive"})
        && (r.value.economicIndicators.Some? <==> queryType in {"economic", "comprehensive"})
        && (r.value.marketSummary.Some? <==> queryType == "comprehensive")
        && (r.value.searchResults.Some? <==> queryType == "search")
  {
  }

  function Len<T>(v: Option<seq<T>>): nat { if v.Some? then |v.value| else 0 }

  /** How many records the answer carries: every list that is present, the search's three
      lists included. */
  function ResultCount(data: Data): nat {
    Len(data.companies) + Len(data.developments) + Len(data.economicIndicators)
      + (if data.searchResults.Some?
         then |data.searchResults.value.companies| + |data.searchResults.value.developments| + |data.searchResults.value.economic|
         else 0)
  }

  /** `getResultCount`: the counter grows by every list that is present. */
  method GetResultCount(data: Data) returns (count: nat)
    ensures count == ResultCount(data)
  {
    count := 0;
    if data.companies.Some? { count := count + |data.companies.value|; }
    if data.developments.Some? { count := count + |data.developments.value|; }
    if data.economicIndicators.Some? { count := count + |data.economicIndicators.value|; }
    if data.searchResults.Some? {
      var s := data.searchResults.value;
      count := count + (|s.companies| + |s.developments| + |s.economic|);
    }
  }

  /** The count agrees with the search's own total, and with the summary's overview plus
      the indicators for a comprehensive query. */
  lemma ResultCountAgrees(db: Database, query: Option<string>, queryType: string, f: Filters, context: Option<string>)
    requires FetchBusinessData(db, query, queryType, f, context).Ok?
    ensures var d := FetchBusinessData(db, query, queryType, f, context).value;
      && (queryType == "search" ==> ResultCount(d) == d.searchResults.value.relevance.totalResults)
      && (queryType == "comprehensive" ==>
            ResultCount(d) == d.marketSummary.value.overview.totalCompanies + d.marketSummary.value.overview.totalDevelopments
                              + |d.economicIndicators.value|)
  {
    if queryType == "search" {
      IntelligentSearchProps(db, query, f, context);
    }
  }

  // ------------------------------------------------------------------ handler

  datatype Request = Request(verb: string, query: Option<string>, queryType: string, filters: Option<Filters>,
                             context: Option<string>)

  function FiltersOf(req: Request): Filters { if req.filters.Some? then req.filters.value else NO_FILTERS }

  datatype Body =
    | NoBody
    | Failure(error: string, details: Option<string>)
    | Success(query: Option<string>, queryType: string, data: Data, filters: Filters, resultCount: nat)

  datatype Response = Response(status: nat, body: Body)

  /** `handler`: OPTIONS, then POST only; a failed fetch is a 500 with its message. */
  /** The POST path: the filters default to none, a thrown read is a 500 with its message,
      and a success carries the data and its count. */
  method HandlePost(req: Request, db: Database) returns (r: Response)
    ensures match FetchBusinessData(db, req.query, req.queryType, FiltersOf(req), req.context)
      case Err(message) => r == Response(500, Failure("Failed to query business data", Some(message)))
      case Ok(data) => r == Response(200, Success(req.query, req.queryType, data, FiltersOf(req), ResultCount(data)))
  {
    var filters := FiltersOf(req);
    var data := FetchBusinessData(db, req.query, req.queryType, filters, req.context);
    match data {
      case Err(message) =>
        r := Response(500, Failure("Failed to query business data", Some(message)));
      case Ok(value) =>
        var count := GetResultCount(value);
        r := Response(200, Success(req.query, req.queryType, value, filters, count));
    }
  }

  method Handle(req: Request, db: Database) returns (r: Response)
    ensures req.verb == "OPTIONS" ==> r == Response(200, NoBody)
    ensures req.verb != "OPTIONS" && req.verb != "POST" ==> r == Response(405, Failure("Method not allowed", None))
    ensures req.verb == "POST" ==>
      var fetched := FetchBusinessData(db, req.query, req.queryType, FiltersOf(req), req.context);
      && (fetched.Err? ==> r == Response(500, Failure("Failed to query business data", Some(fetched.msg))))
      && (fetched.Ok? ==> r == Response(200, Success(req.query, req.queryType, fetched.value, FiltersOf(req),
                                                     ResultCount(fetched.value))))
  {
    if req.verb == "OPTIONS" {
      return Response(200, NoBody);
    }
    if req.verb != "POST" {
      return Response(405, Failure("Method not allowed", None));
    }
    r := HandlePost(req, db);
  }
}
