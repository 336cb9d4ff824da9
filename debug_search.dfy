/** The `/api/debug-search` endpoint and the in-memory log it reports on: the 50 most
    recent search activities, newest first, with statistics computed over them. The clock
    is a parameter. */
module DebugSearch {
  import opened Wrappers
  import Str
  import Js
  import Ranking
  import Tally

  /** One logged search, as `ai-search` reports it; `timestamp` is set when it is logged. */
  datatype Activity = Activity(
    query: Option<string>, resultsCount: nat, duration: Option<string>, method_: string,
    semanticCount: int, keywordCount: int, success: bool, topResults: seq<string>, timestamp: string)

  const MAX_SEARCHES: nat := 50

  /** `unshift`, then keep the first `MAX_SEARCHES`. */
  function Prepend(entries: seq<Activity>, a: Activity): seq<Activity> {
    Ranking.Take([a] + entries, MAX_SEARCHES)
  }

  /** Logging puts the new entry first, keeps the older ones in order after it, and drops
      only the oldest, once there are more than 50. */
  lemma PrependProps(entries: seq<Activity>, a: Activity)
    requires |entries| <= MAX_SEARCHES
    ensures var r := Prepend(entries, a);
      && |r| == (if |entries| < MAX_SEARCHES then |entries| + 1 else MAX_SEARCHES)
      && r[0] == a
      && r[1..] == entries[..|r| - 1]
  {
    var r := Prepend(entries, a);
    assert r == ([a] + entries)[..|r|];
    assert ([a] + entries)[1..] == entries;
  }

  /** After logging `k` entries into an empty log, the log holds the newest
      `min(k, 50)` of them, newest first. */
  function LogOf(activities: seq<Activity>): seq<Activity>
    decreases |activities|
  {
    if activities == [] then [] else Prepend(LogOf(activities[..|activities| - 1]), activities[|activities| - 1])
  }

  function Reversed(s: seq<Activity>): (r: seq<Activity>)
    ensures |r| == |s|
    ensures forall k :: 0 <= k < |s| ==> r[k] == s[|s| - 1 - k]
  {
    seq(|s|, k requires 0 <= k < |s| => s[|s| - 1 - k])
  }

  lemma {:induction false} LogOfNewest(activities: seq<Activity>)
    ensures LogOf(activities) == Ranking.Take(Reversed(activities), MAX_SEARCHES)
    decreases |activities|
  {
    if activities != [] {
      var init := activities[..|activities| - 1];
      var last := activities[|activities| - 1];
      LogOfNewest(init);
      var prev := Ranking.Take(Reversed(init), MAX_SEARCHES);
      var rev := Reversed(activities);
      assert rev == [last] + Reversed(init);
      var r := Ranking.Take([last] + prev, MAX_SEARCHES);
      var t := Ranking.Take(rev, MAX_SEARCHES);
      assert |r| == |t|;
      forall k | 0 <= k < |r| ensures r[k] == t[k] {
        if k > 0 {
          assert r[k] == prev[k - 1];
          assert t[k] == Reversed(init)[k - 1];
        }
      }
    }
  }

  /** The module-level `recentSearches` array. */
  class SearchLog {
    var recentSearches: seq<Activity>

    ghost predicate Valid()
      reads this
    {
      |recentSearches| <= MAX_SEARCHES
    }

    constructor ()
      ensures Valid() && recentSearches == []
    {
      recentSearches := [];
    }

    /** `logSearchActivity`: stamp the entry with the current time and put it first. */
    method LogSearchActivity(activity: Activity, now: string)
      requires Valid()
      modifies this
      ensures Valid()
      ensures recentSearches == Prepend(old(recentSearches), activity.(timestamp := now))
    {
      recentSearches := [activity.(timestamp := now)] + recentSearches;
      if |recentSearches| > MAX_SEARCHES {
        recentSearches := recentSearches[..MAX_SEARCHES];
      }
    }

    /** `handler`, reading the log. */
    method Handle(verb: string, limitParam: Option<string>, details: Option<string>) returns (r: Response)
      ensures verb == "OPTIONS" ==> r == Response(200, NoBody)
      ensures verb != "OPTIONS" && verb != "GET" ==> r == Response(405, Failure("Method not allowed"))
      ensures verb == "GET" ==> r.status == 200 && r.body.Debug?
      ensures verb == "GET" ==> r.body.stats == StatsOf(recentSearches)
      ensures verb == "GET" ==>
        (var recent := JsSlice(recentSearches, RequestLimit(limitParam));
         r.body.recentActivity == if details == Some("true") then Full(recent) else Summaries(SummarizeAll(recent)))
    {
      if verb == "OPTIONS" {
        return Response(200, NoBody);
      }
      if verb != "GET" {
        return Response(405, Failure("Method not allowed"));
      }
      var limit := RequestLimit(limitParam);
      var recent := JsSlice(recentSearches, limit);
      var averageResponseTime := CalculateAverageResponseTime(recentSearches);
      var searchMethods := GetSearchMethodStats(recentSearches);
      var stats := Stats(|recentSearches|, averageResponseTime, CommonQueries(recentSearches), searchMethods,
                         ErrorRate(recentSearches));
      r := Response(200, Debug(stats, if details == Some("true") then Full(recent) else Summaries(SummarizeAll(recent))));
    }
  }

  // ------------------------------------------------------------------ request

  /** `parseInt(req.query.limit) || 10`: NaN and 0 become 10. */
  function RequestLimit(param: Option<string>): (r: int)
    ensures r != 0
    ensures param.None? ==> r == 10
  {
    if param.None? then 10
    else
      var p := Str.ParseInt(param.value);
      if p.None? || p.value == 0 then 10 else p.value
  }

  /** `entries.slice(0, limit)`: a negative limit counts back from the end. */
  function JsSlice(entries: seq<Activity>, limit: int): (r: seq<Activity>)
    ensures limit >= 0 ==> r == Ranking.Take(entries, limit)
    ensures limit < 0 ==> |r| == (if |entries| + limit > 0 then |entries| + limit else 0)
    ensures r == entries[..|r|]
  {
    if limit >= 0 then Ranking.Take(entries, limit)
    else if |entries| + limit > 0 then entries[..|entries| + limit]
    else []
  }

  // ------------------------------------------------------------------ statistics

  /** Entries that report a duration (a non-empty string). */
  function Timed(es: seq<Activity>): (r: seq<Activity>)
    ensures |r| <= |es|
    ensures forall a :: a in r <==> a in es && Js.Filled(a.duration)
    decreases |es|
  {
    if es == [] then []
    else
      assert es == [es[0]] + es[1..];
      (if Js.Filled(es[0].duration) then [es[0]] else []) + Timed(es[1..])
  }

  /** `parseInt(s.duration) || 0`. */
  function Millis(a: Activity): int {
    var p := if a.duration.Some? then Str.ParseInt(a.duration.value) else None;
    if p.Some? then p.value else 0
  }

  function MillisSum(es: seq<Activity>): int
    decreases |es|
  {
    if es == [] then 0 else MillisSum(es[..|es| - 1]) + Millis(es[|es| - 1])
  }

  /** `Math.round(total / n)` in exact arithmetic: the nearest integer, halves up. */
  function Round(total: int, n: nat): (r: int)
    requires n > 0
    ensures 2 * r * n <= 2 * total + n < 2 * r * n + 2 * n
  {
    var d := 2 * n;
    var q := (2 * total + n) / d;
    assert 2 * total + n == q * d + (2 * total + n) % d;
    assert q * d == 2 * q * n;
    q
  }

  /** Rounding a quotient that lies between two integers stays between them. */
  lemma RoundBetween(total: int, n: nat, lo: int, hi: int)
    requires n > 0
    requires lo * n <= total <= hi * n
    ensures lo <= Round(total, n) <= hi
  {
    var r := Round(total, n);
    var d := 2 * n;
    assert lo * d == 2 * (lo * n);
    assert (r + 1) * d == 2 * r * n + 2 * n;
    MulLt(lo, r + 1, d);
    assert r * d == 2 * r * n;
    assert (hi + 1) * d == 2 * (hi * n) + 2 * n;
    MulLt(r, hi + 1, d);
  }

  lemma MulLt(a: int, b: int, m: nat)
    requires a * m < b * m
    ensures a < b
  {
    if a >= b {
      MulLe(b, a, m);
    }
  }

  /** `calculateAverageResponseTime`: 0 with no timed entries. */
  function AverageResponseTime(es: seq<Activity>): int {
    var timed := Timed(es);
    if |timed| == 0 then 0 else Round(MillisSum(timed), |timed|)
  }

  /** One more entry adds its duration to the running total. */
  lemma SumStep(es: seq<Activity>, i: nat)
    requires i < |es|
    ensures MillisSum(es[..i + 1]) == MillisSum(es[..i]) + Millis(es[i])
  {
    assert es[..i + 1][..i] == es[..i];
  }

  /** The reduce over the timed entries. */
  method CalculateAverageResponseTime(es: seq<Activity>) returns (average: int)
    ensures average == AverageResponseTime(es)
  {
    if |es| == 0 {
      return 0;
    }
    var valid := Timed(es);
    if |valid| == 0 {
      return 0;
    }
    var total := 0;
    var i := 0;
    while i < |valid|
      invariant 0 <= i <= |valid|
      invariant total == MillisSum(valid[..i])
    {
      SumStep(valid, i);
      total := total + Millis(valid[i]);
      i := i + 1;
    }
    assert valid[..i] == valid;
    average := Round(total, |valid|);
  }

  /** Durations are reported as whole milliseconds, so when every timed entry took between
      `lo` and `hi` ms, so does the average. */
  lemma AverageWithin(es: seq<Activity>, lo: int, hi: int)
    requires lo <= hi
    requires forall a :: a in Timed(es) ==> lo <= Millis(a) <= hi
    requires Timed(es) != []
    ensures lo <= AverageResponseTime(es) <= hi
  {
    var timed := Timed(es);
    SumWithin(timed, lo, hi);
    RoundBetween(MillisSum(timed), |timed|, lo, hi);
  }

  lemma MulLe(a: int, b: int, m: nat)
    requires a <= b
    ensures a * m <= b * m
  {
    assert b * m - a * m == (b - a) * m;
  }

  lemma {:induction false} SumWithin(es: seq<Activity>, lo: int, hi: int)
    requires forall a :: a in es ==> lo <= Millis(a) <= hi
    ensures lo * |es| <= MillisSum(es) <= hi * |es|
    decreases |es|
  {
    if es != [] {
      var m := |es| - 1;
      var init := es[..m];
      assert forall a :: a in init ==> a in es;
      SumWithin(init, lo, hi);
      var x := Millis(es[m]);
      assert lo <= x <= hi by { assert es[m] in es; }
      assert MillisSum(es) == MillisSum(init) + x;
      MulSucc(lo, m);
      MulSucc(hi, m);
    }
  }

  lemma MulSucc(a: int, m: nat)
    ensures a * (m + 1) == a * m + a
  {
  }

  /** `search.query.toLowerCase().trim()`. */
  function Normalized(q: string): string { Str.Trim(Str.Lower(q)) }

  /** The normalised queries of the entries that have one, in log order. */
  function QueryKeys(es: seq<Activity>): seq<string>
    decreases |es|
  {
    if es == [] then []
    else (if Js.Filled(es[0].query) then [Normalized(es[0].query.value)] else []) + QueryKeys(es[1..])
  }

  /** `getCommonQueries`: the five most frequent normalised queries. */
  function CommonQueries(es: seq<Activity>): seq<Tally.Entry<string>> {
    Tally.Top(Tally.Counts(QueryKeys(es)), 5)
  }

  lemma {:induction false} QueryKeysNormal(es: seq<Activity>)
    ensures forall q :: q in QueryKeys(es) ==> exists k :: 0 <= k < |es| && Js.Filled(es[k].query) && q == Normalized(es[k].query.value)
    decreases |es|
  {
    if es != [] {
      QueryKeysNormal(es[1..]);
      forall q | q in QueryKeys(es[1..]) ensures exists k :: 0 <= k < |es| && Js.Filled(es[k].query) && q == Normalized(es[k].query.value) {
        var k :| 0 <= k < |es[1..]| && Js.Filled(es[1..][k].query) && q == Normalized(es[1..][k].query.value);
        assert es[k + 1] == es[1..][k];
      }
    }
  }

  /** At most five queries, in non-increasing count, each the normalised query of some
      entry and counted as often as it occurs. */
  lemma CommonQueriesProps(es: seq<Activity>)
    ensures var top := CommonQueries(es);
      && |top| <= 5
      && Ranking.SortedDesc(top, Tally.CountKey)
      && (forall e :: e in top ==> e.1 == Tally.Occ(QueryKeys(es), e.0))
      && (forall e :: e in top ==> exists k :: 0 <= k < |es| && Js.Filled(es[k].query) && e.0 == Normalized(es[k].query.value))
  {
    var c := Tally.Counts(QueryKeys(es));
    Tally.TopProps(c, 5);
    QueryKeysNormal(es);
    forall e | e in CommonQueries(es) ensures e.1 == Tally.Occ(QueryKeys(es), e.0) && e.0 in QueryKeys(es) {
      assert e in multiset(c);
      var i :| 0 <= i < |c| && c[i] == e;
      Tally.CountsEntry(QueryKeys(es), i);
    }
  }

  datatype MethodCounts = MethodCounts(semantic: nat, keyword: nat, hybrid: nat)

  /** The bucket `getSearchMethodStats` puts one entry in, if any. */
  function Bucket(a: Activity, m: MethodCounts): MethodCounts {
    if a.semanticCount > 0 && a.keywordCount > 0 then m.(hybrid := m.hybrid + 1)
    else if a.semanticCount > 0 then m.(semantic := m.semantic + 1)
    else if a.keywordCount > 0 then m.(keyword := m.keyword + 1)
    else m
  }

  function MethodStats(es: seq<Activity>): MethodCounts
    decreases |es|
  {
    if es == [] then MethodCounts(0, 0, 0) else Bucket(es[|es| - 1], MethodStats(es[..|es| - 1]))
  }

  /** The `forEach` with its three counters. */
  method GetSearchMethodStats(es: seq<Activity>) returns (m: MethodCounts)
    ensures m == MethodStats(es)
  {
    m := MethodCounts(0, 0, 0);
    var i := 0;
    while i < |es|
      invariant 0 <= i <= |es|
      invariant m == MethodStats(es[..i])
    {
      assert es[..i + 1][..i] == es[..i];
      var search := es[i];
      if search.semanticCount > 0 && search.keywordCount > 0 {
        m := m.(hybrid := m.hybrid + 1);
      } else if search.semanticCount > 0 {
        m := m.(semantic := m.semantic + 1);
      } else if search.keywordCount > 0 {
        m := m.(keyword := m.keyword + 1);
      }
      i := i + 1;
    }
    assert es[..i] == es;
  }

  predicate Counted(a: Activity) { a.semanticCount > 0 || a.keywordCount > 0 }

  function CountedNumber(es: seq<Activity>): nat
    decreases |es|
  {
    if es == [] then 0 else CountedNumber(es[..|es| - 1]) + (if Counted(es[|es| - 1]) then 1 else 0)
  }

  /** Each entry lands in at most one bucket: the three counts add up to the number of
      entries with a positive semantic or keyword count. */
  lemma {:induction false} MethodStatsSum(es: seq<Activity>)
    ensures var m := MethodStats(es); m.semantic + m.keyword + m.hybrid == CountedNumber(es) <= |es|
    decreases |es|
  {
    if es != [] {
      MethodStatsSum(es[..|es| - 1]);
    }
  }

  function Failures(es: seq<Activity>): nat
    decreases |es|
  {
    if es == [] then 0 else Failures(es[..|es| - 1]) + (if es[|es| - 1].success then 0 else 1)
  }

  lemma {:induction false} FailuresBound(es: seq<Activity>)
    ensures Failures(es) <= |es|
    ensures Failures(es) == 0 <==> forall k :: 0 <= k < |es| ==> es[k].success
    decreases |es|
  {
    if es != [] {
      var init := es[..|es| - 1];
      FailuresBound(init);
      assert forall k :: 0 <= k < |init| ==> init[k] == es[k];
    }
  }

  /** `calculateErrorRate`: 0 for an empty log, else the percentage of failed searches,
      rounded. */
  function ErrorRate(es: seq<Activity>): (r: int)
    ensures es == [] ==> r == 0
  {
    if es == [] then 0 else Round(100 * Failures(es), |es|)
  }

  /** The rate is a percentage: within [0, 100], 0 when nothing failed and 100 when
      everything did. */
  lemma ErrorRateProps(es: seq<Activity>)
    ensures 0 <= ErrorRate(es) <= 100
    ensures (forall k :: 0 <= k < |es| ==> es[k].success) ==> ErrorRate(es) == 0
    ensures es != [] && (forall k :: 0 <= k < |es| ==> !es[k].success) ==> ErrorRate(es) == 100
  {
    FailuresBound(es);
    if es != [] {
      var n := |es|;
      var f := Failures(es);
      assert 0 * n <= 100 * f <= 100 * n;
      RoundBetween(100 * f, n, 0, 100);
      if forall k :: 0 <= k < |es| ==> es[k].success {
        assert 100 * f == 0 * n;
        RoundBetween(100 * f, n, 0, 0);
      }
      if forall k :: 0 <= k < |es| ==> !es[k].success {
        AllFailed(es);
        RoundBetween(100 * f, n, 100, 100);
      }
    }
  }

  lemma {:induction false} AllFailed(es: seq<Activity>)
    requires forall k :: 0 <= k < |es| ==> !es[k].success
    ensures Failures(es) == |es|
    decreases |es|
  {
    if es != [] {
      var init := es[..|es| - 1];
      assert forall k :: 0 <= k < |init| ==> init[k] == es[k];
      AllFailed(init);
    }
  }

  datatype Stats = Stats(totalSearches: nat, averageResponseTime: int, commonQueries: seq<Tally.Entry<string>>,
                         searchMethods: MethodCounts, errorRate: int)

  function StatsOf(es: seq<Activity>): Stats {
    Stats(|es|, AverageResponseTime(es), CommonQueries(es), MethodStats(es), ErrorRate(es))
  }

  // ------------------------------------------------------------------ response

  datatype Summary = Summary(timestamp: string, query: Option<string>, resultsCount: nat, duration: Option<string>,
                             method_: string, success: bool)

  /** `summarizeActivity`: the query cut to its first 50 characters. */
  function SummarizeActivity(a: Activity): (s: Summary)
    ensures s.query.Some? <==> a.query.Some?
    ensures a.query.Some? ==> (|s.query.value| == (if |a.query.value| < 50 then |a.query.value| else 50)
      && s.query.value == a.query.value[..|s.query.value|])
    ensures s.timestamp == a.timestamp && s.resultsCount == a.resultsCount && s.success == a.success
  {
    var q := if a.query.Some? then Some(a.query.value[..if |a.query.value| < 50 then |a.query.value| else 50]) else None;
    Summary(a.timestamp, q, a.resultsCount, a.duration, a.method_, a.success)
  }

  function SummarizeAll(es: seq<Activity>): (r: seq<Summary>)
    ensures |r| == |es|
    ensures forall k :: 0 <= k < |es| ==> r[k] == SummarizeActivity(es[k])
  {
    seq(|es|, k requires 0 <= k < |es| => SummarizeActivity(es[k]))
  }

  datatype RecentActivity = Full(entries: seq<Activity>) | Summaries(summaries: seq<Summary>)

  datatype Body = NoBody | Failure(error: string) | Debug(stats: Stats, recentActivity: RecentActivity)

  datatype Response = Response(status: nat, body: Body)
}
