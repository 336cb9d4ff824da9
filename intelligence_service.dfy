/** BusinessIntelligenceService: the competitive landscape of one business among the
    businesses of its industry, and the threshold rules that label it. The current year
    is a parameter. */
module BusinessIntelligence {
  import opened Wrappers
  import Str
  import Js
  import Ranking
  import E = BusinessEntity
  import S = BusinessService

  /** `x.employeeCount || 1`. */
  function SizeOrOne(b: E.Business): int {
    if Js.Nonzero(b.employeeCount) then b.employeeCount.value else 1
  }

  /** The filter of `generateCompetitiveLandscape`: another business, in the same city,
      whose head count is within a factor two of the business's, with null or 0 as 1. */
  predicate IsCompetitor(business: E.Business, businessId: string, c: E.Business) {
    var sizeRatio := SizeOrOne(c) as real / SizeOrOne(business) as real;
    c.id != businessId && !(sizeRatio < 0.5 || sizeRatio > 2.0) && c.city == business.city
  }

  /** In whole numbers: for a positive head count d of the business, a competitor of
      head count a is near in size exactly when d <= 2a and a <= 2d. */
  lemma IsCompetitorIff(business: E.Business, businessId: string, c: E.Business)
    requires SizeOrOne(business) > 0
    ensures IsCompetitor(business, businessId, c) <==>
      c.id != businessId && c.city == business.city
      && SizeOrOne(business) <= 2 * SizeOrOne(c) && SizeOrOne(c) <= 2 * SizeOrOne(business)
  {
    QuotientBelow(SizeOrOne(c), SizeOrOne(business), 1, 2);
    QuotientBelow(2 * SizeOrOne(business), SizeOrOne(business), 2, 1);
    QuotientAbove(SizeOrOne(c), SizeOrOne(business), 2);
  }

  lemma MulLess(x: real, t: real, m: real)
    requires m > 0.0
    ensures x < t <==> x * m < t * m
  {
    assert t * m - x * m == (t - x) * m;
  }

  /** a / d < p / q exactly when q * a < p * d, for positive d and q. */
  lemma QuotientBelow(a: int, d: int, p: int, q: int)
    requires d > 0 && q > 0
    ensures a as real / d as real < p as real / q as real <==> q * a < p * d
  {
    var x := a as real / d as real;
    assert x * d as real == a as real;
    var t := p as real / q as real;
    assert t * q as real == p as real;
    MulLess(x, t, (d * q) as real);
    assert x * (d * q) as real == (q * a) as real;
    assert t * (d * q) as real == (p * d) as real;
  }

  /** a / d > k exactly when a > k * d, for positive d. */
  lemma QuotientAbove(a: int, d: int, k: int)
    requires d > 0
    ensures a as real / d as real > k as real <==> a > k * d
  {
    var x := a as real / d as real;
    assert x * d as real == a as real;
    MulLess(k as real, x, d as real);
  }

  function Competitors(business: E.Business, businessId: string, cs: seq<E.Business>): (r: seq<E.Business>)
    ensures |r| <= |cs|
    ensures forall c :: c in r <==> c in cs && IsCompetitor(business, businessId, c)
    decreases |cs|
  {
    if cs == [] then []
    else (if IsCompetitor(business, businessId, cs[0]) then [cs[0]] else []) + Competitors(business, businessId, cs[1..])
  }

  // ------------------------------------------------------------------ calculateMarketPosition

  /** The number of elements of s whose key is above v. */
  function CountAbove<T>(s: seq<T>, f: T -> int, v: int): (n: nat)
    ensures n <= |s|
    decreases |s|
  {
    if s == [] then 0 else (if f(s[0]) > v then 1 else 0) + CountAbove(s[1..], f, v)
  }

  lemma {:induction false} CountAboveInsert<T>(x: T, s: seq<T>, f: T -> int, v: int)
    ensures CountAbove(Ranking.Insert(x, s, f), f, v) == CountAbove(s, f, v) + (if f(x) > v then 1 else 0)
    decreases |s|
  {
    if s != [] && f(s[0]) > f(x) {
      CountAboveInsert(x, s[1..], f, v);
      assert ([s[0]] + Ranking.Insert(x, s[1..], f))[1..] == Ranking.Insert(x, s[1..], f);
    } else if s != [] {
      assert ([x] + s)[1..] == s;
    }
  }

  lemma {:induction false} CountAboveSort<T>(s: seq<T>, f: T -> int, v: int)
    ensures CountAbove(Ranking.SortDesc(s, f), f, v) == CountAbove(s, f, v)
    decreases |s|
  {
    if s != [] {
      CountAboveSort(s[1..], f, v);
      CountAboveInsert(s[0], Ranking.SortDesc(s[1..], f), f, v);
    }
  }

  lemma {:induction false} CountAboveNone<T>(s: seq<T>, f: T -> int, v: int)
    requires forall k :: 0 <= k < |s| ==> f(s[k]) <= v
    ensures CountAbove(s, f, v) == 0
    decreases |s|
  {
    if s != [] {
      CountAboveNone(s[1..], f, v);
    }
  }

  /** In a list sorted by descending key, the insertion of x lands right after the
      elements whose key is above its own. */
  lemma {:induction false} InsertAt<T>(x: T, s: seq<T>, f: T -> int)
    requires Ranking.SortedDesc(s, f)
    ensures var k := CountAbove(s, f, f(x));
      Ranking.Insert(x, s, f) == s[..k] + [x] + s[k..]
    decreases |s|
  {
    if s == [] {
    } else if f(s[0]) <= f(x) {
      CountAboveNone(s, f, f(x));
    } else {
      var k := CountAbove(s[1..], f, f(x));
      InsertAt(x, s[1..], f);
      assert s[..k + 1] == [s[0]] + s[1..][..k];
      assert s[k + 1..] == s[1..][k..];
    }
  }

  /** `findIndex(b => b.id === id)`. */
  function FindId(s: seq<E.Business>, id: string): (r: Option<nat>)
    ensures r.Some? ==> r.value < |s| && s[r.value].id == id && forall j :: 0 <= j < r.value ==> s[j].id != id
    ensures r.None? ==> forall j :: 0 <= j < |s| ==> s[j].id != id
    decreases |s|
  {
    if s == [] then None
    else if s[0].id == id then Some(0)
    else match FindId(s[1..], id)
      case None => None
      case Some(k) => Some(k + 1)
  }

  /** The 1-based revenue rank of the business among itself and the competitors; the
      `findIndex(...) + 1` gives 0 when the business is not in the list. */
  function RevenueRank(business: E.Business, competitors: seq<E.Business>): nat {
    match FindId(Ranking.SortDesc([business] + competitors, S.RevenueKey), business.id)
    case None => 0
    case Some(k) => k + 1
  }

  /** The label for percentile `(n - rank) / n * 100`. */
  function PositionLabel(rank: nat, n: nat): string
    requires n > 0
  {
    var percentile := (n - rank) as real / n as real * 100.0;
    if percentile >= 75.0 then "Market Leader"
    else if percentile >= 50.0 then "Strong Competitor"
    else if percentile >= 25.0 then "Emerging Player"
    else "Niche Player"
  }

  function MarketPosition(business: E.Business, competitors: seq<E.Business>): string {
    PositionLabel(RevenueRank(business, competitors), 1 + |competitors|)
  }

  /** The sort is stable and puts the business first among equal revenues, so its rank is
      one more than the number of competitors with strictly higher revenue (null as 0). */
  lemma RevenueRankIs(business: E.Business, competitors: seq<E.Business>)
    requires forall c :: c in competitors ==> c.id != business.id
    ensures RevenueRank(business, competitors) == 1 + CountAbove(competitors, S.RevenueKey, S.RevenueKey(business))
  {
    var f := S.RevenueKey;
    var sorted := Ranking.SortDesc(competitors, f);
    assert ([business] + competitors)[1..] == competitors;
    Ranking.SortDescSorted(competitors, f);
    InsertAt(business, sorted, f);
    var k := CountAbove(sorted, f, f(business));
    OthersBefore(business, competitors, sorted, k);
    CountAboveSort(competitors, f, f(business));
  }

  /** Spliced into a reordering of the competitors, the business is the first element
      with its id. */
  lemma OthersBefore(business: E.Business, competitors: seq<E.Business>, sorted: seq<E.Business>, k: nat)
    requires forall c :: c in competitors ==> c.id != business.id
    requires multiset(sorted) == multiset(competitors) && k <= |sorted|
    ensures var all := sorted[..k] + [business] + sorted[k..];
      all[k] == business && forall j :: 0 <= j < k ==> all[j].id != business.id
  {
    var all := sorted[..k] + [business] + sorted[k..];
    forall j | 0 <= j < k ensures all[j].id != business.id {
      assert all[j] == sorted[j];
      assert sorted[j] in multiset(competitors);
    }
  }

  /** The label in whole numbers: four quarters of the ranking, from the top. */
  lemma PositionLabelIff(rank: nat, n: nat)
    requires 0 < rank <= n
    ensures PositionLabel(rank, n) == "Market Leader" <==> 4 * (n - rank) >= 3 * n
    ensures PositionLabel(rank, n) == "Strong Competitor" <==> 3 * n > 4 * (n - rank) >= 2 * n
    ensures PositionLabel(rank, n) == "Emerging Player" <==> 2 * n > 4 * (n - rank) >= n
    ensures PositionLabel(rank, n) == "Niche Player" <==> n > 4 * (n - rank)
  {
    var p := (n - rank) as real / n as real * 100.0;
    var q := (n - rank) as real / n as real;
    assert q * n as real == (n - rank) as real;
    assert p >= 75.0 <==> 4 * (n - rank) >= 3 * n by { ThresholdIff(q, n, 75.0, 4 * (n - rank), 3 * n); }
    assert p >= 50.0 <==> 4 * (n - rank) >= 2 * n by { ThresholdIff(q, n, 50.0, 4 * (n - rank), 2 * n); }
    assert p >= 25.0 <==> 4 * (n - rank) >= n by { ThresholdIff(q, n, 25.0, 4 * (n - rank), n); }
  }

  lemma ThresholdIff(q: real, n: nat, t: real, lhs: int, rhs: int)
    requires n > 0
    requires lhs as real == 4.0 * q * n as real
    requires rhs as real == t / 25.0 * n as real
    ensures q * 100.0 >= t <==> lhs >= rhs
  {
    var m := n as real;
    if q * 100.0 >= t {
      assert q >= t / 100.0;
      assert q * m >= t / 100.0 * m;
    } else {
      assert q < t / 100.0;
      assert q * m < t / 100.0 * m;
    }
  }

  /** A business alone in its market is a Niche Player; one that out-earns at least three
      competitors, all of them, is the Market Leader. */
  lemma MarketPositionExtremes(business: E.Business, competitors: seq<E.Business>)
    requires forall c :: c in competitors ==> c.id != business.id
    ensures competitors == [] ==> MarketPosition(business, competitors) == "Niche Player"
    ensures |competitors| >= 3 && (forall c :: c in competitors ==> S.RevenueKey(c) <= S.RevenueKey(business)) ==>
      MarketPosition(business, competitors) == "Market Leader"
  {
    RevenueRankIs(business, competitors);
    var n := 1 + |competitors|;
    if competitors == [] {
      PositionLabelIff(1, 1);
    }
    if |competitors| >= 3 && forall c :: c in competitors ==> S.RevenueKey(c) <= S.RevenueKey(business) {
      CountAboveNone(competitors, S.RevenueKey, S.RevenueKey(business));
      PositionLabelIff(1, n);
    }
  }

  // ------------------------------------------------------------------ identifyThreats

  /** `(c.revenue || 0) > (business.revenue || 0) * 1.5`, in whole numbers. */
  predicate IsLarger(business: E.Business, c: E.Business) {
    2 * S.RevenueKey(c) > 3 * S.RevenueKey(business)
  }

  predicate IsNewEntrant(c: E.Business, currentYear: int) {
    var age := E.AgeInYears(c, currentYear);
    age.Some? && age.value < 3
  }

  function CountWhere(cs: seq<E.Business>, p: E.Business -> bool): (n: nat)
    ensures n <= |cs|
    ensures n > 0 <==> exists c :: c in cs && p(c)
    decreases |cs|
  {
    if cs == [] then 0 else (if p(cs[0]) then 1 else 0) + CountWhere(cs[1..], p)
  }

  function LargerMessage(n: nat): string { Str.NatToString(n) + " larger competitors in the same market" }

  function NewEntrantMessage(n: nat): string { Str.NatToString(n) + " new entrants in the last 3 years" }

  /** `identifyThreats`: one message for the larger competitors and one for the new
      entrants, each only when there is at least one, in that order. */
  function Threats(business: E.Business, competitors: seq<E.Business>, currentYear: int): (r: seq<string>)
    ensures |r| <= 2
    ensures LargerMessage(CountWhere(competitors, c => IsLarger(business, c))) in r <==>
      exists c :: c in competitors && IsLarger(business, c)
    ensures (exists c :: c in competitors && IsNewEntrant(c, currentYear)) ==>
      r != [] && r[|r| - 1] == NewEntrantMessage(CountWhere(competitors, c => IsNewEntrant(c, currentYear)))
    ensures r == [] <==> forall c :: c in competitors ==> !IsLarger(business, c) && !IsNewEntrant(c, currentYear)
  {
    var larger := CountWhere(competitors, c => IsLarger(business, c));
    var newer := CountWhere(competitors, c => IsNewEntrant(c, currentYear));
    MessagesDiffer(larger, newer);
    (if larger > 0 then [LargerMessage(larger)] else []) + (if newer > 0 then [NewEntrantMessage(newer)] else [])
  }

  /** The two messages never coincide: they end differently. */
  lemma MessagesDiffer(a: nat, b: nat)
    ensures LargerMessage(a) != NewEntrantMessage(b)
  {
    var x := LargerMessage(a);
    var y := NewEntrantMessage(b);
    assert x[|x| - 1] == 't';
    assert y[|y| - 1] == 's';
  }

  // ------------------------------------------------------------------ identifyOpportunities

  function RatingOrZero(b: E.Business): real {
    var r := b.customerMetrics.rating;
    if r.Some? then r.value else 0.0
  }

  function RatingSum(cs: seq<E.Business>): real
    decreases |cs|
  {
    if cs == [] then 0.0 else RatingOrZero(cs[0]) + RatingSum(cs[1..])
  }

  function Neighborhoods(cs: seq<E.Business>): set<Option<string>> {
    set c | c in cs :: c.neighborhood
  }

  /** `identifyOpportunities`: a truthy rating above the competitors' mean rating (null as
      0; with no competitors the mean is NaN and nothing is above it), then expansion into
      the other neighbourhoods when the competitors sit in more than one (null counts as a
      neighbourhood). */
  function Opportunities(business: E.Business, competitors: seq<E.Business>): (r: seq<string>)
    ensures |r| <= 2
    ensures competitors == [] ==> r == []
  {
    var rating := business.customerMetrics.rating;
    var above := competitors != [] && rating.Some? && rating.value != 0.0
                 && rating.value > RatingSum(competitors) / |competitors| as real;
    var hoods := |Neighborhoods(competitors)|;
    (if above then ["Above-average customer satisfaction provides competitive advantage"] else [])
    + (if hoods > 1 then ["Potential expansion into " + Str.NatToString(hoods - 1) + " additional neighborhoods"] else [])
  }

  // ------------------------------------------------------------------ threshold rules

  datatype Maturity = Emerging | Growing | Mature | Declining

  function AgeOrZero(b: E.Business, currentYear: int): int {
    E.AgeInYears(b, currentYear).GetOr(0)
  }

  function AgeSum(bs: seq<E.Business>, currentYear: int): int
    decreases |bs|
  {
    if bs == [] then 0 else AgeOrZero(bs[0], currentYear) + AgeSum(bs[1..], currentYear)
  }

  /** `assessMarketMaturity` on the mean age, unknown ages as 0. An empty list divides 0 by
      0, fails every comparison and is "declining". */
  function MarketMaturity(bs: seq<E.Business>, currentYear: int): Maturity {
    if bs == [] then Declining
    else
      var avgAge := AgeSum(bs, currentYear) as real / |bs| as real;
      if avgAge < 5.0 then Emerging
      else if avgAge < 10.0 then Growing
      else if avgAge < 20.0 then Mature
      else Declining
  }

  /** In whole numbers: the total age against 5, 10 and 20 years per business. */
  lemma MarketMaturityIff(bs: seq<E.Business>, currentYear: int)
    requires bs != []
    ensures var total := AgeSum(bs, currentYear); var n := |bs|;
      && (MarketMaturity(bs, currentYear) == Emerging <==> total < 5 * n)
      && (MarketMaturity(bs, currentYear) == Growing <==> 5 * n <= total < 10 * n)
      && (MarketMaturity(bs, currentYear) == Mature <==> 10 * n <= total < 20 * n)
      && (MarketMaturity(bs, currentYear) == Declining <==> 20 * n <= total)
  {
    var total := AgeSum(bs, currentYear);
    AverageBelow(total, |bs|, 5);
    AverageBelow(total, |bs|, 10);
    AverageBelow(total, |bs|, 20);
  }

  lemma AverageBelow(total: int, n: int, t: int)
    requires n > 0
    ensures total as real / n as real < t as real <==> total < t * n
  {
    var x := total as real / n as real;
    assert x * n as real == total as real;
    MulLess(x, t as real, n as real);
  }

  datatype Intensity = Low | Medium | High | VeryHigh

  /** `assessCompetitionIntensity`: bands of the competitor count split at 3, 10 and 20. */
  function CompetitionIntensity(competitors: seq<E.Business>): (r: Intensity)
    ensures r == Low <==> |competitors| < 3
    ensures r == Medium <==> 3 <= |competitors| < 10
    ensures r == High <==> 10 <= |competitors| < 20
    ensures r == VeryHigh <==> 20 <= |competitors|
  {
    if |competitors| < 3 then Low
    else if |competitors| < 10 then Medium
    else if |competitors| < 20 then High
    else VeryHigh
  }

  /** More competitors never lowers the intensity. */
  lemma IntensityMonotone(a: seq<E.Business>, b: seq<E.Business>)
    requires |a| <= |b|
    ensures IntensityRank(CompetitionIntensity(a)) <= IntensityRank(CompetitionIntensity(b))
  {
  }

  function IntensityRank(i: Intensity): nat {
    match i
    case Low => 0
    case Medium => 1
    case High => 2
    case VeryHigh => 3
  }

  // ------------------------------------------------------------------ generateCompetitiveLandscape

  datatype Landscape = Landscape(
    business: E.BusinessJson, competitors: seq<E.BusinessJson>, marketPosition: string,
    threats: seq<string>, opportunities: seq<string>, competitionIntensity: Intensity)

  function JsonAll(bs: seq<E.Business>, currentYear: int): (r: seq<E.BusinessJson>)
    ensures |r| == |bs| && forall i :: 0 <= i < |bs| ==> r[i] == E.ToJson(bs[i], currentYear)
  {
    seq(|bs|, i requires 0 <= i < |bs| => E.ToJson(bs[i], currentYear))
  }

  /** `generateCompetitiveLandscape` once the repository has answered the lookup and the
      industry query (run for `business.industry || ''`). */
  function CompetitiveLandscape(businessId: string, found: Option<E.Business>, sameIndustry: seq<E.Business>,
                                currentYear: int): (r: Result<Landscape>)
    ensures r.Err? <==> found.None?
    ensures r.Err? ==> r.msg == "Business not found: " + businessId
  {
    if found.None? then Err("Business not found: " + businessId)
    else
      var business := found.value;
      var competitors := Competitors(business, businessId, sameIndustry);
      Ok(Landscape(E.ToJson(business, currentYear), JsonAll(competitors, currentYear),
                   MarketPosition(business, competitors),
                   Threats(business, competitors, currentYear),
                   Opportunities(business, competitors),
                   CompetitionIntensity(competitors)))
  }

  /** The landscape lists exactly the competitors of the filter, and its position is the
      label of the business's revenue rank among them, which is one more than the number
      of competitors with a higher revenue. */
  lemma LandscapeProps(businessId: string, found: Option<E.Business>, sameIndustry: seq<E.Business>, currentYear: int)
    requires found.Some? && found.value.id == businessId
    ensures var r := CompetitiveLandscape(businessId, found, sameIndustry, currentYear);
      var cs := Competitors(found.value, businessId, sameIndustry);
      && r.Ok?
      && |r.value.competitors| == |cs|
      && r.value.marketPosition == MarketPosition(found.value, cs)
      && RevenueRank(found.value, cs) == 1 + CountAbove(cs, S.RevenueKey, S.RevenueKey(found.value))
      && r.value.competitionIntensity == CompetitionIntensity(cs)
      && (forall i :: 0 <= i < |cs| ==> r.value.competitors[i] == E.ToJson(cs[i], currentYear))
      && (forall c :: c in cs <==> c in sameIndustry && IsCompetitor(found.value, businessId, c))
      && (SizeOrOne(found.value) > 0 ==>
            forall c :: c in cs <==> && c in sameIndustry && c.id != businessId && c.city == found.value.city
                                     && SizeOrOne(found.value) <= 2 * SizeOrOne(c) && SizeOrOne(c) <= 2 * SizeOrOne(found.value))
  {
    RevenueRankIs(found.value, Competitors(found.value, businessId, sameIndustry));
    if SizeOrOne(found.value) > 0 {
      forall c {
        IsCompetitorIff(found.value, businessId, c);
      }
    }
  }
}
