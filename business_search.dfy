/** The search hook of the business directory: the filter object the page edits key by
    key, the count of filters in effect, the choice between semantic search, filtered
    search and an empty answer, and the effect that starts a search whenever the query or
    the filters change. A filter object is a JavaScript object, a list of (key, value)
    pairs in insertion order with distinct keys; the service replies are parameters. */
module BusinessSearch {
  import opened Wrappers
  import Str
  import Js

  type Fields = seq<(string, Js.Value)>

  predicate DistinctKeys(fields: Fields) {
    forall i, j :: 0 <= i < j < |fields| ==> fields[i].0 != fields[j].0
  }

  predicate HasKey(fields: Fields, key: string) {
    exists i :: 0 <= i < |fields| && fields[i].0 == key
  }

  // ---------------------------------------------------------------------------
  // Editing the filters

  /** `delete obj[key]` on a copy: the entries with that key are dropped, the others keep
      their order. */
  function Remove(fields: Fields, key: string): (r: Fields)
    ensures forall p :: p in r <==> p in fields && p.0 != key
    ensures |r| <= |fields|
  {
    if fields == [] then []
    else if fields[0].0 == key then Remove(fields[1..], key)
    else [fields[0]] + Remove(fields[1..], key)
  }

  /** Removing a key that is absent changes nothing. */
  lemma {:induction false} RemoveAbsent(fields: Fields, key: string)
    requires !HasKey(fields, key)
    ensures Remove(fields, key) == fields
  {
    if fields != [] {
      assert !HasKey(fields[1..], key) by {
        forall i | 0 <= i < |fields[1..]| ensures fields[1..][i].0 != key {
          assert fields[1..][i] == fields[i + 1];
        }
      }
      RemoveAbsent(fields[1..], key);
      assert [fields[0]] + fields[1..] == fields;
    }
  }

  /** `clearFilter` removes exactly one key: it is gone, every other key reads as before,
      and the keys keep their order. */
  lemma {:induction false} RemoveProps(fields: Fields, key: string)
    ensures !HasKey(Remove(fields, key), key)
    ensures forall k :: k != key ==> Js.FieldValue(Remove(fields, key), k) == Js.FieldValue(fields, k)
    ensures forall k :: k != key ==> (HasKey(Remove(fields, key), k) <==> HasKey(fields, k))
  {
    var r := Remove(fields, key);
    forall i | 0 <= i < |r| ensures r[i].0 != key {
      assert r[i] in r;
    }
    forall k | k != key ensures HasKey(r, k) <==> HasKey(fields, k) {
      if HasKey(fields, k) {
        var i :| 0 <= i < |fields| && fields[i].0 == k;
        assert fields[i] in fields;
        assert fields[i] in r;
        var j :| 0 <= j < |r| && r[j] == fields[i];
      }
      if HasKey(r, k) {
        var j :| 0 <= j < |r| && r[j].0 == k;
        assert r[j] in r;
        var i :| 0 <= i < |fields| && fields[i] == r[j];
      }
    }
    RemoveReads(fields, key);
  }

  lemma {:induction false} RemoveReads(fields: Fields, key: string)
    ensures forall k :: k != key ==> Js.FieldValue(Remove(fields, key), k) == Js.FieldValue(fields, k)
  {
    if fields != [] {
      RemoveReads(fields[1..], key);
      if fields[0].0 != key {
        var r := Remove(fields, key);
        assert r == [fields[0]] + Remove(fields[1..], key);
        assert r[1..] == Remove(fields[1..], key);
      }
    }
  }

  /** Both edits keep the keys distinct. */
  lemma {:induction false} SetDistinct(fields: Fields, key: string, v: Js.Value)
    requires DistinctKeys(fields)
    ensures DistinctKeys(Js.Set(fields, key, v))
  {
    var r := Js.Set(fields, key, v);
    var keys := Js.Keys(r);
    if HasKey(fields, key) {
      assert keys == Js.Keys(fields);
      forall i, j | 0 <= i < j < |r| ensures r[i].0 != r[j].0 {
        assert r[i].0 == keys[i] == fields[i].0;
        assert r[j].0 == keys[j] == fields[j].0;
      }
    } else {
      assert keys == Js.Keys(fields) + [key];
      forall i, j | 0 <= i < j < |r| ensures r[i].0 != r[j].0 {
        assert r[i].0 == keys[i] == fields[i].0;
        if j < |fields| {
          assert r[j].0 == keys[j] == fields[j].0;
        } else {
          assert r[j].0 == keys[j] == key;
        }
      }
    }
  }

  lemma {:induction false} RemoveDistinct(fields: Fields, key: string)
    requires DistinctKeys(fields)
    ensures DistinctKeys(Remove(fields, key))
  {
    if fields != [] {
      assert DistinctKeys(fields[1..]) by {
        forall i, j | 0 <= i < j < |fields[1..]| ensures fields[1..][i].0 != fields[1..][j].0 {
          assert fields[1..][i] == fields[i + 1] && fields[1..][j] == fields[j + 1];
        }
      }
      RemoveDistinct(fields[1..], key);
      if fields[0].0 != key {
        var rest := Remove(fields[1..], key);
        var r := [fields[0]] + rest;
        forall j | 0 <= j < |rest| ensures rest[j].0 != fields[0].0 {
          assert rest[j] in rest;
          var k :| 0 <= k < |fields[1..]| && fields[1..][k] == rest[j];
          assert fields[k + 1] == rest[j];
        }
        forall i, j | 0 <= i < j < |r| ensures r[i].0 != r[j].0 {
          if i > 0 {
            assert r[i] == rest[i - 1] && r[j] == rest[j - 1];
          } else {
            assert r[j] == rest[j - 1];
          }
        }
      }
    }
  }

  // ---------------------------------------------------------------------------
  // Counting the filters in effect

  /** A value that counts: a non-empty array, an object with some defined field, or any
      other value that is not undefined (null included, since `typeof null` is
      "object" but the object test excludes it). */
  predicate Active(v: Js.Value) {
    match v
    case Undefined => false
    case Arr(items) => |items| > 0
    case Obj(fs) => exists i :: 0 <= i < |fs| && fs[i].1 != Js.Undefined
    case _ => true
  }

  function Ind(v: Js.Value): nat { if Active(v) then 1 else 0 }

  /** `activeFiltersCount`. */
  function ActiveCount(fields: Fields): nat {
    if fields == [] then 0 else Ind(fields[0].1) + ActiveCount(fields[1..])
  }

  /** The count is at most the number of keys, and it is 0 exactly when no value is in
      effect. */
  lemma {:induction false} ActiveCountProps(fields: Fields)
    ensures ActiveCount(fields) <= |fields|
    ensures ActiveCount(fields) == 0 <==> forall i :: 0 <= i < |fields| ==> !Active(fields[i].1)
  {
    if fields != [] {
      ActiveCountProps(fields[1..]);
      assert forall i :: 0 < i < |fields| ==> fields[i] == fields[1..][i - 1];
    }
  }

  /** Setting a key replaces that key's share of the count by the new value's. */
  lemma {:induction false} SetCount(fields: Fields, key: string, v: Js.Value)
    ensures ActiveCount(Js.Set(fields, key, v)) == ActiveCount(fields) - Ind(Js.FieldValue(fields, key)) + Ind(v)
  {
    if fields != [] && fields[0].0 != key {
      SetCount(fields[1..], key, v);
      var r := Js.Set(fields, key, v);
      assert r[1..] == Js.Set(fields[1..], key, v);
    } else if fields != [] {
      assert Js.Set(fields, key, v)[1..] == fields[1..];
    }
  }

  /** Clearing a key takes away exactly that key's share of the count. */
  lemma {:induction false} RemoveCount(fields: Fields, key: string)
    requires DistinctKeys(fields)
    ensures ActiveCount(Remove(fields, key)) == ActiveCount(fields) - Ind(Js.FieldValue(fields, key))
  {
    if fields != [] {
      assert DistinctKeys(fields[1..]) by {
        forall i, j | 0 <= i < j < |fields[1..]| ensures fields[1..][i].0 != fields[1..][j].0 {
          assert fields[1..][i] == fields[i + 1] && fields[1..][j] == fields[j + 1];
        }
      }
      if fields[0].0 == key {
        assert !HasKey(fields[1..], key) by {
          forall i | 0 <= i < |fields[1..]| ensures fields[1..][i].0 != key {
            assert fields[1..][i] == fields[i + 1];
          }
        }
        RemoveAbsent(fields[1..], key);
      } else {
        RemoveCount(fields[1..], key);
        assert Remove(fields, key)[1..] == Remove(fields[1..], key);
      }
    }
  }

  // ---------------------------------------------------------------------------
  // Choosing the search

  /** `BusinessSearchResult` as the hook builds and stores it. */
  datatype SearchResult = SearchResult(businesses: seq<Js.Value>, total: int, page: int, totalPages: int,
    hasNextPage: bool, hasPreviousPage: bool, filters: Fields, analytics: Js.Value)

  /** The call `performSearch` makes. */
  datatype Call =
    | Semantic(query: string, limit: nat)
    | Filtered(filters: Fields, page: int, pageSize: nat)
    | NoSearch

  const PAGE_SIZE := 20

  /** Some key other than "query" is present, whatever its value. */
  predicate OtherKey(fields: Fields) {
    exists i :: 0 <= i < |fields| && fields[i].0 != "query"
  }

  /** `performSearch`'s branch: a query that is non-empty after trimming goes to semantic
      search, otherwise any other key goes to filtered search. */
  function Branch(searchFilters: Fields, page: int): Call {
    var q := Js.FieldValue(searchFilters, "query");
    if q.Text? && Str.Trim(q.s) != "" then Semantic(q.s, PAGE_SIZE)
    else if OtherKey(searchFilters) then Filtered(searchFilters, page, PAGE_SIZE)
    else NoSearch
  }

  /** The empty answer, with the analytics fetched for it. */
  function EmptyResult(searchFilters: Fields, analytics: Js.Value): (r: SearchResult)
    ensures r.businesses == [] && r.total == 0 && r.page == 1 && r.totalPages == 0
    ensures !r.hasNextPage && !r.hasPreviousPage && r.filters == searchFilters
  {
    SearchResult([], 0, 1, 0, false, false, searchFilters, analytics)
  }

  /** `{ ...filters, query: query.trim() || undefined }`. */
  function SearchFiltersOf(query: string, filters: Fields): Fields {
    var q := Str.Trim(query);
    Js.Set(filters, "query", if q != "" then Js.Text(q) else Js.Undefined)
  }

  /** `query.trim() || Object.keys(filters).length > 0`. */
  predicate ShouldSearch(query: string, filters: Fields) {
    Str.Trim(query) != "" || |filters| > 0
  }

  lemma TrimTwice(s: string)
    ensures Str.Trim(Str.Trim(s)) == Str.Trim(s)
  {
    Str.TrimShape(s);
    Str.TrimNoOuterSpace(Str.Trim(s));
  }

  /** With a non-blank query the effect's search is a semantic search for the trimmed
      query. */
  lemma EffectSemantic(query: string, filters: Fields)
    requires Str.Trim(query) != ""
    ensures Branch(SearchFiltersOf(query, filters), 1) == Semantic(Str.Trim(query), PAGE_SIZE)
  {
    TrimTwice(query);
  }

  /** The keys of the effect's filters are those of the filters, plus "query". */
  lemma SearchKeys(query: string, filters: Fields)
    ensures OtherKey(SearchFiltersOf(query, filters)) <==> OtherKey(filters)
  {
    var sf := SearchFiltersOf(query, filters);
    var keys := Js.Keys(sf);
    if HasKey(filters, "query") {
      assert keys == Js.Keys(filters);
    } else {
      assert keys == Js.Keys(filters) + ["query"];
    }
    if OtherKey(filters) {
      var i :| 0 <= i < |filters| && filters[i].0 != "query";
      assert keys[i] == filters[i].0;
      assert sf[i].0 == keys[i];
    }
    if OtherKey(sf) {
      var i :| 0 <= i < |sf| && sf[i].0 != "query";
      assert sf[i].0 == keys[i];
      if i < |filters| {
        assert keys[i] == filters[i].0;
      }
    }
  }

  /** With a blank query the effect's search is a filtered search on page 1 when some
      other key is set, and no search at all when "query" was the only key. */
  lemma EffectBlank(query: string, filters: Fields)
    requires Str.Trim(query) == ""
    ensures OtherKey(filters) ==>
      Branch(SearchFiltersOf(query, filters), 1) == Filtered(SearchFiltersOf(query, filters), 1, PAGE_SIZE)
    ensures !OtherKey(filters) ==> Branch(SearchFiltersOf(query, filters), 1) == NoSearch
  {
    SearchKeys(query, filters);
  }

  // ---------------------------------------------------------------------------
  // The hook's state

  class SearchHook {
    var query: string
    var filters: Fields
    var results: Option<SearchResult>
    var isLoading: bool
    var currentPage: int

    ghost predicate Valid()
      reads this
    {
      DistinctKeys(filters)
    }

    constructor()
      ensures Valid()
      ensures query == "" && filters == [] && results == None && !isLoading && currentPage == 1
    {
      query := "";
      filters := [];
      results := None;
      isLoading := false;
      currentPage := 1;
    }

    /** `setQuery`. */
    method SetQuery(q: string)
      requires Valid()
      modifies this
      ensures Valid()
      ensures query == q && filters == old(filters) && results == old(results)
      ensures isLoading == old(isLoading) && currentPage == old(currentPage)
    {
      query := q;
    }

    /** `handleFilterChange`: sets one key, keeping the others. */
    method HandleFilterChange(key: string, value: Js.Value)
      requires Valid()
      modifies this
      ensures Valid()
      ensures filters == Js.Set(old(filters), key, value)
      ensures query == old(query) && results == old(results)
      ensures isLoading == old(isLoading) && currentPage == old(currentPage)
    {
      SetDistinct(filters, key, value);
      filters := Js.Set(filters, key, value);
    }

    /** `clearFilter`: removes one key, keeping the others. */
    method ClearFilter(key: string)
      requires Valid()
      modifies this
      ensures Valid()
      ensures filters == Remove(old(filters), key)
      ensures query == old(query) && results == old(results)
      ensures isLoading == old(isLoading) && currentPage == old(currentPage)
    {
      RemoveDistinct(filters, key);
      filters := Remove(filters, key);
    }

    /** `clearAllFilters`: no filters and no query. */
    method ClearAllFilters()
      requires Valid()
      modifies this
      ensures Valid()
      ensures filters == [] && query == ""
      ensures results == old(results) && isLoading == old(isLoading) && currentPage == old(currentPage)
    {
      filters := [];
      query := "";
    }

    /** The search-trigger effect: with a non-blank query or some filter key it asks for a
        search of the combined filters on page 1 and resets the page; otherwise it drops
        the results. */
    method Refresh() returns (search: Option<Fields>)
      requires Valid()
      modifies this
      ensures Valid()
      ensures search.Some? <==> ShouldSearch(old(query), old(filters))
      ensures search.Some? ==>
        search.value == SearchFiltersOf(old(query), old(filters)) && currentPage == 1 && results == old(results)
      ensures search.None? ==> results == None && currentPage == old(currentPage)
      ensures query == old(query) && filters == old(filters) && isLoading == old(isLoading)
    {
      var searchFilters := SearchFiltersOf(query, filters);
      if Str.Trim(query) != "" || |filters| > 0 {
        search := Some(searchFilters);
        currentPage := 1;
      } else {
        search := None;
        results := None;
      }
    }

    /** `performSearch`: the branch picks the call; `reply` is the service's answer to
        it and `analytics` the one fetched for the empty answer. A failed call leaves the
        results as they were; loading is off afterwards either way. */
    method PerformSearch(searchFilters: Fields, page: int, reply: Result<SearchResult>, analytics: Js.Value)
      returns (call: Call)
      requires Valid()
      modifies this
      ensures Valid()
      ensures call == Branch(searchFilters, page)
      ensures call.NoSearch? ==> results == Some(EmptyResult(searchFilters, analytics))
      ensures !call.NoSearch? && reply.Ok? ==> results == Some(reply.value)
      ensures !call.NoSearch? && reply.Err? ==> results == old(results)
      ensures !isLoading
      ensures query == old(query) && filters == old(filters) && currentPage == old(currentPage)
    {
      isLoading := true;
      call := Branch(searchFilters, page);
      if call.NoSearch? {
        results := Some(EmptyResult(searchFilters, analytics));
      } else if reply.Ok? {
        results := Some(reply.value);
      }
      isLoading := false;
    }
  }
}
