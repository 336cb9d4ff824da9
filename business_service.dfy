/** BusinessService: the business rules between the API and the business repository.
    Each repository call is a parameter holding what the repository returned. */
module BusinessService {
  import opened Wrappers
  import Str
  import Js
  import Tally
  import Ranking
  import Grouping
  import E = BusinessEntity

  /** `getBusinessById`: the repository's answer, or the not-found error. */
  function GetBusinessById(id: string, found: Option<E.Business>): (r: Result<E.Business>)
    ensures r.Err? <==> found.None?
    ensures r.Err? ==> r.msg == "Business not found: " + id
    ensures r.Ok? ==> r.value == found.value
  {
    if found.None? then Err("Business not found: " + id) else Ok(found.value)
  }

  /** The industry name passed to the repository: trimmed and lower-cased. */
  function NormalizeIndustry(industry: string): string {
    Str.Lower(Str.Trim(industry))
  }

  lemma LowerKeepsSpaces(s: string)
    ensures forall i :: 0 <= i < |s| ==> (Str.IsSpace(Str.Lower(s)[i]) <==> Str.IsSpace(s[i]))
  {
  }

  /** Normalising twice is normalising once, the result has no outer white space and no
      upper-case letter, and names differing only in case and outer spaces agree. */
  lemma NormalizeIndustryProps(a: string, b: string)
    ensures NormalizeIndustry(NormalizeIndustry(a)) == NormalizeIndustry(a)
    ensures var n := NormalizeIndustry(a); n == [] || (!Str.IsSpace(n[0]) && !Str.IsSpace(n[|n| - 1]))
    ensures forall i :: 0 <= i < |NormalizeIndustry(a)| ==> !Str.IsUpper(NormalizeIndustry(a)[i])
    ensures Str.Lower(Str.Trim(a)) == Str.Lower(Str.Trim(b)) ==> NormalizeIndustry(a) == NormalizeIndustry(b)
  {
    var t := Str.Trim(a);
    Str.TrimShape(a);
    var n := Str.Lower(t);
    LowerKeepsSpaces(t);
    Str.TrimNoOuterSpace(n);
    assert Str.Lower(n) == n;
  }

  /** `getBusinessesByLocation`: the city, state and neighbourhood the repository is asked
      for, with a missing or empty city and state defaulting to Charlotte, NC. */
  function LocationQuery(city: Option<string>, state: Option<string>, neighborhood: Option<string>): (r: (string, string, Option<string>))
    ensures Js.Filled(city) ==> r.0 == city.value
    ensures !Js.Filled(city) ==> r.0 == "Charlotte"
    ensures Js.Filled(state) ==> r.1 == state.value
    ensures !Js.Filled(state) ==> r.1 == "NC"
    ensures r.2 == neighborhood && r.0 != "" && r.1 != ""
  {
    (if Js.Filled(city) then city.value else "Charlotte",
     if Js.Filled(state) then state.value else "NC",
     neighborhood)
  }

  datatype SizeClass = Micro | Small | Medium | Large

  /** `getBusinessesBySize`: the inclusive employee range asked of the repository. */
  function SizeRange(c: SizeClass): (int, int) {
    match c
    case Micro => (1, 9)
    case Small => (10, 49)
    case Medium => (50, 249)
    case Large => (250, 99999)
  }

  function Next(c: SizeClass): Option<SizeClass> {
    match c
    case Micro => Some(Small)
    case Small => Some(Medium)
    case Medium => Some(Large)
    case Large => None
  }

  function EntityName(c: SizeClass): string {
    match c
    case Micro => "Micro"
    case Small => "Small"
    case Medium => "Medium"
    case Large => "Large"
  }

  /** The ranges are non-empty and follow each other without gap or overlap from 1 to
      99999, so each head count in that span falls in exactly one, and that one is the
      entity's own size category for the count. */
  lemma SizeRangesTile(c: SizeClass, d: SizeClass, n: int)
    ensures SizeRange(c).0 <= SizeRange(c).1
    ensures Next(c).Some? ==> SizeRange(Next(c).value).0 == SizeRange(c).1 + 1
    ensures SizeRange(Micro).0 == 1 && SizeRange(Large).1 == 99999
    ensures c != d && SizeRange(c).0 <= n <= SizeRange(c).1 ==> !(SizeRange(d).0 <= n <= SizeRange(d).1)
    ensures SizeRange(c).0 <= n <= SizeRange(c).1 ==> E.SizeCategory(Some(n)) == EntityName(c)
  {
  }

  datatype Metric = RevenueMetric | EmployeesMetric | GrowthMetric

  function RevenueKey(b: E.Business): int { b.revenue.GetOr(0) }

  function EmployeesKey(b: E.Business): int { b.employeeCount.GetOr(0) }

  /** The sort key of a metric; growth is ranked by revenue for now. */
  function MetricKey(metric: Metric): E.Business -> int {
    match metric
    case RevenueMetric => RevenueKey
    case EmployeesMetric => EmployeesKey
    case GrowthMetric => RevenueKey
  }

  /** `getTopPerformers` over the (at most 1000) businesses the repository returned. */
  function TopPerformers(all: seq<E.Business>, metric: Metric, limit: nat): seq<E.Business> {
    Ranking.TopBy(all, MetricKey(metric), limit)
  }

  /** At most limit businesses, in non-increasing metric with null as 0, drawn from the
      repository's list without repetition, and none left out outranks one kept; growth
      and revenue give the same list. */
  lemma TopPerformersProps(all: seq<E.Business>, metric: Metric, limit: nat)
    ensures var t := TopPerformers(all, metric, limit);
      && |t| <= limit && |t| <= |all|
      && Ranking.SortedDesc(t, MetricKey(metric))
      && multiset(t) <= multiset(all)
      && (forall e :: e in all && e !in t ==> forall d :: d in t ==> MetricKey(metric)(d) >= MetricKey(metric)(e))
    ensures TopPerformers(all, GrowthMetric, limit) == TopPerformers(all, RevenueMetric, limit)
  {
    Ranking.TopByProps(all, MetricKey(metric), limit);
  }

  function WithoutId(bs: seq<E.Business>, id: string): (r: seq<E.Business>)
    ensures forall b :: b in r <==> b in bs && b.id != id
    decreases |bs|
  {
    if bs == [] then []
    else (if bs[0].id != id then [bs[0]] else []) + WithoutId(bs[1..], id)
  }

  /** The industry the recommendations are drawn from: the business's own, or "". */
  function RecommendationIndustry(b: E.Business): string {
    if Js.Filled(b.industry) then b.industry.value else ""
  }

  /** `getBusinessRecommendations`: the business is looked up first (its absence is the
      not-found error); then the first five others of its industry. */
  function Recommendations(businessId: string, found: Option<E.Business>, sameIndustry: seq<E.Business>): (r: Result<seq<E.Business>>)
    ensures r.Err? <==> found.None?
    ensures r.Err? ==> r.msg == "Business not found: " + businessId
    ensures r.Ok? ==> |r.value| <= 5 && forall b :: b in r.value ==> b.id != businessId && b in sameIndustry
    ensures r.Ok? ==> |r.value| <= |WithoutId(sameIndustry, businessId)| && r.value == WithoutId(sameIndustry, businessId)[..|r.value|]
    ensures r.Ok? && |WithoutId(sameIndustry, businessId)| >= 5 ==> |r.value| == 5
  {
    match GetBusinessById(businessId, found)
    case Err(e) => Err(e)
    case Ok(_) => Ok(Ranking.Take(WithoutId(sameIndustry, businessId), 5))
  }

  // ------------------------------------------------------------------ calculateAnalytics

  function IndustryKey(b: E.Business): string {
    if Js.Filled(b.industry) then b.industry.value else "Unknown"
  }

  /** One business's share of its industry group: count, revenue (a), employees (b). */
  function IndustryVal(b: E.Business): Grouping.Sums {
    Grouping.Sums(1, RevenueKey(b), EmployeesKey(b), 0)
  }

  function RevenueTotal(bs: seq<E.Business>): int
    decreases |bs|
  {
    if bs == [] then 0 else RevenueTotal(bs[..|bs| - 1]) + RevenueKey(bs[|bs| - 1])
  }

  function EmployeesTotal(bs: seq<E.Business>): int
    decreases |bs|
  {
    if bs == [] then 0 else EmployeesTotal(bs[..|bs| - 1]) + EmployeesKey(bs[|bs| - 1])
  }

  datatype IndustryStat = IndustryStat(industry: string, count: nat, totalRevenue: int, totalEmployees: int)

  function StatCount(e: IndustryStat): int { e.count }

  function Stats(g: seq<Grouping.Group<string>>): (r: seq<IndustryStat>)
    ensures |r| == |g|
    ensures forall i :: 0 <= i < |g| ==> r[i] == IndustryStat(g[i].0, g[i].1.count, g[i].1.a, g[i].1.b)
  {
    seq(|g|, i requires 0 <= i < |g| => IndustryStat(g[i].0, g[i].1.count, g[i].1.a, g[i].1.b))
  }

  datatype Analytics = Analytics(
    totalBusinesses: nat, totalRevenue: int, totalEmployees: int,
    averageRevenue: real, averageEmployees: real, topIndustries: seq<IndustryStat>)

  function Average(total: int, n: nat): real {
    if n > 0 then total as real / n as real else 0.0
  }

  /** The analytics of a list of businesses, given its industry groups in first-seen order. */
  function AnalyticsOf(bs: seq<E.Business>, groups: seq<Grouping.Group<string>>): Analytics {
    var totalRevenue := RevenueTotal(bs);
    var totalEmployees := EmployeesTotal(bs);
    Analytics(|bs|, totalRevenue, totalEmployees,
              Average(totalRevenue, |bs|), Average(totalEmployees, |bs|),
              Ranking.TopBy(Stats(groups), StatCount, 5))
  }

  function IndustryGroups(bs: seq<E.Business>): seq<Grouping.Group<string>> {
    Grouping.GroupBy(bs, IndustryKey, IndustryVal)
  }

  /** `calculateAnalytics`: the forEach fills the industry map one business at a time. */
  method CalculateAnalytics(bs: seq<E.Business>) returns (a: Analytics)
    ensures a == AnalyticsOf(bs, IndustryGroups(bs))
  {
    var groups: seq<Grouping.Group<string>> := [];
    var i := 0;
    while i < |bs|
      invariant 0 <= i <= |bs|
      invariant groups == IndustryGroups(bs[..i])
    {
      assert bs[..i + 1][..i] == bs[..i];
      groups := Grouping.Merge(groups, IndustryKey(bs[i]), IndustryVal(bs[i]));
      i := i + 1;
    }
    assert bs[..i] == bs;
    a := AnalyticsOf(bs, groups);
  }

  lemma {:induction false} TotalsAreSums(bs: seq<E.Business>)
    ensures Grouping.SumAll(bs, IndustryVal).a == RevenueTotal(bs)
    ensures Grouping.SumAll(bs, IndustryVal).b == EmployeesTotal(bs)
    decreases |bs|
  {
    if bs != [] {
      TotalsAreSums(bs[..|bs| - 1]);
    }
  }

  /** Every business lands in exactly one industry group (a missing industry under
      "Unknown"): the groups' counts add up to the total, their revenues and employees to
      the totals, and each group counts exactly the businesses with its name. */
  lemma IndustryGroupsProps(bs: seq<E.Business>)
    ensures var g := IndustryGroups(bs);
      && Grouping.Sum(g).count == |bs|
      && Grouping.Sum(g).a == RevenueTotal(bs)
      && Grouping.Sum(g).b == EmployeesTotal(bs)
      && Grouping.GroupKeys(g) == Tally.FirstSeen(Grouping.MapKeys(bs, IndustryKey))
      && forall k :: Grouping.At(g, k).count == Tally.Occ(Grouping.MapKeys(bs, IndustryKey), k)
  {
    Grouping.GroupBySum(bs, IndustryKey, IndustryVal);
    Grouping.SumAllCount(bs, IndustryVal);
    TotalsAreSums(bs);
    Grouping.GroupByKeys(bs, IndustryKey, IndustryVal);
    forall k ensures Grouping.At(IndustryGroups(bs), k).count == Tally.Occ(Grouping.MapKeys(bs, IndustryKey), k) {
      Grouping.GroupByAt(bs, IndustryKey, IndustryVal, k);
      Grouping.SumWhereCount(bs, IndustryKey, IndustryVal, k);
    }
  }

  /** The analytics count every business, add revenue and employees with null as 0, and
      average them (0 for no businesses, which also have no top industries). */
  lemma AnalyticsTotals(bs: seq<E.Business>)
    ensures var a := AnalyticsOf(bs, IndustryGroups(bs));
      && a.totalBusinesses == |bs|
      && a.totalRevenue == Grouping.Sum(IndustryGroups(bs)).a
      && a.totalEmployees == Grouping.Sum(IndustryGroups(bs)).b
      && (bs == [] ==> a.averageRevenue == 0.0 && a.averageEmployees == 0.0 && a.topIndustries == [])
      && (bs != [] ==> (a.averageRevenue * |bs| as real == a.totalRevenue as real
                        && a.averageEmployees * |bs| as real == a.totalEmployees as real))
  {
    var a := AnalyticsOf(bs, IndustryGroups(bs));
    Grouping.GroupBySum(bs, IndustryKey, IndustryVal);
    TotalsAreSums(bs);
    if bs == [] {
      assert IndustryGroups(bs) == [];
      assert Ranking.SortDesc(Stats(IndustryGroups(bs)), StatCount) == [];
    } else {
      AverageTimes(a.totalRevenue, |bs|);
      AverageTimes(a.totalEmployees, |bs|);
    }
  }

  lemma AverageTimes(total: int, n: nat)
    requires n > 0
    ensures Average(total, n) * n as real == total as real
  {
  }

  /** topIndustries holds at most five industries in non-increasing count, each with the
      number, revenue and employees of exactly its businesses, and no industry left out has
      more businesses than one kept. */
  lemma TopIndustriesProps(bs: seq<E.Business>)
    ensures var top := AnalyticsOf(bs, IndustryGroups(bs)).topIndustries;
      && |top| <= 5
      && Ranking.SortedDesc(top, StatCount)
      && (forall e :: e in top ==>
            && e.count == Tally.Occ(Grouping.MapKeys(bs, IndustryKey), e.industry)
            && e.totalRevenue == Grouping.SumWhere(bs, IndustryKey, IndustryVal, e.industry).a
            && e.totalEmployees == Grouping.SumWhere(bs, IndustryKey, IndustryVal, e.industry).b)
      && (forall e :: e in Stats(IndustryGroups(bs)) && e !in top ==>
            forall d :: d in top ==> d.count >= e.count)
  {
    var g := IndustryGroups(bs);
    var stats := Stats(g);
    var top := Ranking.TopBy(stats, StatCount, 5);
    Ranking.TopByProps(stats, StatCount, 5);
    Grouping.GroupByDistinct(bs, IndustryKey, IndustryVal);
    IndustryGroupsProps(bs);
    forall e | e in top
      ensures e.count == Tally.Occ(Grouping.MapKeys(bs, IndustryKey), e.industry)
      ensures e.totalRevenue == Grouping.SumWhere(bs, IndustryKey, IndustryVal, e.industry).a
      ensures e.totalEmployees == Grouping.SumWhere(bs, IndustryKey, IndustryVal, e.industry).b
    {
      assert e in multiset(stats);
      var i :| 0 <= i < |stats| && stats[i] == e;
      Grouping.AtEntry(g, i);
      Grouping.GroupByAt(bs, IndustryKey, IndustryVal, e.industry);
    }
  }
}
