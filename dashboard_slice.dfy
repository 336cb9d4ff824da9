/** The dashboard slice of the client store: the stats, trends and news sections, each with
    its own loading flag, error and last-update time, the refresh interval and the
    auto-refresh switch. The store is a class and each reducer's contract gives the new
    state; the time of a successful load is a parameter. */
module DashboardSlice {
  import opened Wrappers
  import Js
  import Ranking

  datatype Section = Stats | Trends | News

  /** A value per section. */
  datatype PerSection<T> = PerSection(stats: T, trends: T, news: T)

  function Get<T>(p: PerSection<T>, s: Section): T {
    match s
    case Stats => p.stats
    case Trends => p.trends
    case News => p.news
  }

  /** `state.x[section] = v`. */
  function With<T>(p: PerSection<T>, s: Section, v: T): PerSection<T> {
    match s
    case Stats => p.(stats := v)
    case Trends => p.(trends := v)
    case News => p.(news := v)
  }

  /** Writing one section's value changes that section only. */
  lemma WithProps<T>(p: PerSection<T>, s: Section, v: T, other: Section)
    ensures Get(With(p, s, v), s) == v
    ensures other != s ==> Get(With(p, s, v), other) == Get(p, other)
  {
  }

  function All<T>(v: T): (p: PerSection<T>)
    ensures forall s :: Get(p, s) == v
  {
    PerSection(v, v, v)
  }

  datatype Sentiment = Positive | Negative | Neutral

  datatype NewsItem = NewsItem(id: string, title: string, summary: string, url: string, source: string,
    publishedAt: string, category: string, sentiment: Sentiment, relevanceScore: int)

  datatype Dashboard = Dashboard(stats: Option<Js.Value>, trends: Option<Js.Value>, news: seq<NewsItem>,
    isLoading: PerSection<bool>, error: PerSection<Option<string>>, lastUpdated: PerSection<Option<string>>,
    refreshInterval: int, autoRefresh: bool)

  const MAX_NEWS: nat := 50
  /** Five minutes, in milliseconds. */
  const DEFAULT_REFRESH_INTERVAL := 5 * 60 * 1000

  /** `initialState`. */
  const INITIAL := Dashboard(None, None, [], All(false), All(None), All(None), DEFAULT_REFRESH_INTERVAL, true)

  // ---------------------------------------------------------------------------
  // The section reducers, as functions of the state

  /** `setStatsLoading`, `setTrendsLoading`, `setNewsLoading`. */
  function Loading(d: Dashboard, s: Section, b: bool): Dashboard {
    d.(isLoading := With(d.isLoading, s, b), error := if b then With(d.error, s, None) else d.error)
  }

  /** `setStatsError`, `setTrendsError`, `setNewsError`. */
  function Failed(d: Dashboard, s: Section, message: string): Dashboard {
    d.(error := With(d.error, s, Some(message)), isLoading := With(d.isLoading, s, false))
  }

  /** What every success action does besides storing its data. */
  function Settled(d: Dashboard, s: Section, now: string): Dashboard {
    d.(isLoading := With(d.isLoading, s, false), error := With(d.error, s, None),
       lastUpdated := With(d.lastUpdated, s, Some(now)))
  }

  /** Starting to load a section clears that section's error, stopping leaves it; either way
      no other section's flag or error moves. */
  lemma LoadingProps(d: Dashboard, s: Section, b: bool, other: Section)
    ensures Get(Loading(d, s, b).isLoading, s) == b
    ensures b ==> Get(Loading(d, s, b).error, s) == None
    ensures !b ==> Loading(d, s, b).error == d.error
    ensures other != s ==>
      (Get(Loading(d, s, b).isLoading, other) == Get(d.isLoading, other)
       && Get(Loading(d, s, b).error, other) == Get(d.error, other))
    ensures Loading(d, s, b).(isLoading := d.isLoading, error := d.error) == d
  {
  }

  /** An error is recorded and loading stops for that section only. */
  lemma FailedProps(d: Dashboard, s: Section, message: string, other: Section)
    ensures Get(Failed(d, s, message).error, s) == Some(message)
    ensures !Get(Failed(d, s, message).isLoading, s)
    ensures other != s ==>
      (Get(Failed(d, s, message).isLoading, other) == Get(d.isLoading, other)
       && Get(Failed(d, s, message).error, other) == Get(d.error, other))
    ensures Failed(d, s, message).(isLoading := d.isLoading, error := d.error) == d
  {
  }

  /** A success clears loading and the error and stamps the time, for that section only. */
  lemma SettledProps(d: Dashboard, s: Section, now: string, other: Section)
    ensures !Get(Settled(d, s, now).isLoading, s) && Get(Settled(d, s, now).error, s) == None
    ensures Get(Settled(d, s, now).lastUpdated, s) == Some(now)
    ensures other != s ==>
      (Get(Settled(d, s, now).isLoading, other) == Get(d.isLoading, other)
       && Get(Settled(d, s, now).error, other) == Get(d.error, other)
       && Get(Settled(d, s, now).lastUpdated, other) == Get(d.lastUpdated, other))
    ensures Settled(d, s, now).(isLoading := d.isLoading, error := d.error, lastUpdated := d.lastUpdated) == d
  {
  }

  /** `addNewsItem` on the list: `unshift`, then the first 50. */
  function NewsAdded(news: seq<NewsItem>, item: NewsItem): seq<NewsItem> {
    Ranking.Take([item] + news, MAX_NEWS)
  }

  /** The item comes first, the older items follow in order, and at most 50 are kept. */
  lemma NewsAddedProps(news: seq<NewsItem>, item: NewsItem)
    ensures var r := NewsAdded(news, item);
      && |r| == (if |news| < MAX_NEWS then |news| + 1 else MAX_NEWS)
      && r[0] == item
      && r[1..] == news[..|r| - 1]
  {
    var r := NewsAdded(news, item);
    assert r == ([item] + news)[..|r|];
    assert ([item] + news)[1..] == news;
  }

  /** `refreshAllData`. */
  function Refreshing(d: Dashboard): Dashboard {
    d.(isLoading := All(true), error := All(None))
  }

  /** Refreshing starts every section loading with no error, and leaves the data, times
      and settings as they were. */
  lemma RefreshingProps(d: Dashboard, s: Section)
    ensures Get(Refreshing(d).isLoading, s) && Get(Refreshing(d).error, s) == None
    ensures Refreshing(d).(isLoading := d.isLoading, error := d.error) == d
    ensures Refreshing(Refreshing(d)) == Refreshing(d)
  {
  }

  class DashboardStore {
    var stats: Option<Js.Value>
    var trends: Option<Js.Value>
    var news: seq<NewsItem>
    var isLoading: PerSection<bool>
    var error: PerSection<Option<string>>
    var lastUpdated: PerSection<Option<string>>
    var refreshInterval: int
    var autoRefresh: bool

    function State(): Dashboard
      reads this
    {
      Dashboard(stats, trends, news, isLoading, error, lastUpdated, refreshInterval, autoRefresh)
    }

    constructor()
      ensures State() == INITIAL
    {
      stats, trends, news := None, None, [];
      isLoading, error, lastUpdated := All(false), All(None), All(None);
      refreshInterval, autoRefresh := DEFAULT_REFRESH_INTERVAL, true;
    }

    /** The three loading reducers. */
    method SetLoading(s: Section, b: bool)
      modifies this
      ensures State() == Loading(old(State()), s, b)
    {
      isLoading := With(isLoading, s, b);
      if b {
        error := With(error, s, None);
      }
    }

    /** The three error reducers. */
    method SetError(s: Section, message: string)
      modifies this
      ensures State() == Failed(old(State()), s, message)
    {
      error := With(error, s, Some(message));
      isLoading := With(isLoading, s, false);
    }

    method SetStatsSuccess(payload: Js.Value, now: string)
      modifies this
      ensures State() == Settled(old(State()), Stats, now).(stats := Some(payload))
    {
      stats := Some(payload);
      isLoading := isLoading.(stats := false);
      error := error.(stats := None);
      lastUpdated := lastUpdated.(stats := Some(now));
    }

    method SetTrendsSuccess(payload: Js.Value, now: string)
      modifies this
      ensures State() == Settled(old(State()), Trends, now).(trends := Some(payload))
    {
      trends := Some(payload);
      isLoading := isLoading.(trends := false);
      error := error.(trends := None);
      lastUpdated := lastUpdated.(trends := Some(now));
    }

    method SetNewsSuccess(payload: seq<NewsItem>, now: string)
      modifies this
      ensures State() == Settled(old(State()), News, now).(news := payload)
    {
      news := payload;
      isLoading := isLoading.(news := false);
      error := error.(news := None);
      lastUpdated := lastUpdated.(news := Some(now));
    }

    method AddNewsItem(item: NewsItem)
      modifies this
      ensures State() == old(State()).(news := NewsAdded(old(news), item))
    {
      news := [item] + news;
      if |news| > MAX_NEWS {
        news := news[..MAX_NEWS];
      }
    }

    method SetRefreshInterval(ms: int)
      modifies this
      ensures State() == old(State()).(refreshInterval := ms)
    {
      refreshInterval := ms;
    }

    method SetAutoRefresh(b: bool)
      modifies this
      ensures State() == old(State()).(autoRefresh := b)
    {
      autoRefresh := b;
    }

    method ClearErrors()
      modifies this
      ensures State() == old(State()).(error := All(None))
    {
      error := PerSection(None, None, None);
    }

    /** `clearStatsError`, `clearTrendsError`, `clearNewsError`. */
    method ClearError(s: Section)
      modifies this
      ensures State() == old(State()).(error := With(old(error), s, None))
    {
      error := With(error, s, None);
    }

    method RefreshAllData()
      modifies this
      ensures State() == Refreshing(old(State()))
    {
      isLoading := PerSection(true, true, true);
      error := PerSection(None, None, None);
    }

    method ResetDashboard()
      modifies this
      ensures State() == INITIAL
    {
      stats, trends, news := None, None, [];
      isLoading, error, lastUpdated := All(false), All(None), All(None);
      refreshInterval, autoRefresh := DEFAULT_REFRESH_INTERVAL, true;
    }
  }
}
