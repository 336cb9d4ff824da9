/** The companies slice of the client store: the company list, the selected company, the
    last page of search results, the search filters, the loading and error flags and the
    recent-search history (newest first, at most ten, no repeats). As in the UI slice,
    the store is a class and each reducer's contract gives the new state. The history
    read from browser storage at start-up is a parameter. */
module CompaniesSlice {
  import opened Wrappers
  import Str
  import Js
  import Seqs
  import Dedupe
  import BusinessSearch

  /** A company as the client holds it: its id and its other properties. */
  datatype Company = Company(id: string, properties: seq<(string, Js.Value)>)

  /** `PaginatedResponse<Company>`. */
  datatype Page = Page(data: seq<Company>, total: int, page: int, pageSize: int, totalPages: int,
    hasNext: bool, hasPrevious: bool)

  type Filters = BusinessSearch.Fields

  datatype Companies = Companies(companies: seq<Company>, selectedCompany: Option<Company>,
    searchResults: Option<Page>, filters: Filters, isLoading: bool, error: Option<string>,
    recentSearches: seq<string>)

  const MAX_RECENT := 10

  /** `initialState`, with the stored history. */
  function Initial(recent: seq<string>): Companies {
    Companies([], None, None, [], false, None, recent)
  }

  // ---------------------------------------------------------------------------
  // The company list

  /** `findIndex(c => c.id === id)`, searching from `from`. */
  function FirstWithId(cs: seq<Company>, id: string, from: nat): (r: Option<nat>)
    ensures r.Some? ==> from <= r.value < |cs| && cs[r.value].id == id
    ensures r.Some? ==> forall j :: from <= j < r.value ==> cs[j].id != id
    ensures r.None? ==> forall j :: from <= j < |cs| ==> cs[j].id != id
    decreases |cs| - from
  {
    if from >= |cs| then None
    else if cs[from].id == id then Some(from)
    else FirstWithId(cs, id, from + 1)
  }

  /** `updateCompany` on the list. */
  function Replaced(cs: seq<Company>, c: Company): seq<Company> {
    match FirstWithId(cs, c.id, 0)
    case None => cs
    case Some(i) => cs[i := c]
  }

  /** The first company with the payload's id is replaced by the payload and every other
      entry, later ones with the same id included, stays; with no such company the list
      is unchanged. */
  lemma ReplacedProps(cs: seq<Company>, c: Company)
    ensures |Replaced(cs, c)| == |cs|
    ensures forall j :: 0 <= j < |cs| ==>
      Replaced(cs, c)[j] == if cs[j].id == c.id && (forall k :: 0 <= k < j ==> cs[k].id != c.id) then c else cs[j]
    ensures (forall j :: 0 <= j < |cs| ==> cs[j].id != c.id) ==> Replaced(cs, c) == cs
    ensures (exists j :: 0 <= j < |cs| && cs[j].id == c.id) ==> c in Replaced(cs, c)
  {
    match FirstWithId(cs, c.id, 0)
    case None =>
    case Some(i) =>
      forall j | 0 <= j < |cs| && cs[j].id == c.id && (forall k :: 0 <= k < j ==> cs[k].id != c.id)
        ensures j == i
      {
        if j > i {
          assert false;
        }
      }
  }

  predicate NotId(id: string, c: Company) { c.id != id }

  /** `removeCompany` on the list. */
  function Removed(cs: seq<Company>, id: string): seq<Company> {
    Seqs.Where(cs, c => NotId(id, c))
  }

  /** Every company with the id goes, every other stays, in order; with no such company
      the list is unchanged. */
  lemma RemovedProps(cs: seq<Company>, id: string)
    ensures forall c :: c in Removed(cs, id) <==> c in cs && c.id != id
    ensures forall j :: 0 <= j < |Removed(cs, id)| ==> Removed(cs, id)[j].id != id
    ensures Dedupe.Subseq(Removed(cs, id), cs)
    ensures (forall j :: 0 <= j < |cs| ==> cs[j].id != id) ==> Removed(cs, id) == cs
  {
    Seqs.WhereOrder(cs, c => NotId(id, c));
    if forall j :: 0 <= j < |cs| ==> cs[j].id != id {
      RemovedNone(cs, id);
    }
    var r := Removed(cs, id);
    forall j | 0 <= j < |r| ensures r[j].id != id {
      assert r[j] in r;
    }
  }

  lemma {:induction false} RemovedNone(cs: seq<Company>, id: string)
    requires forall j :: 0 <= j < |cs| ==> cs[j].id != id
    ensures Removed(cs, id) == cs
    decreases |cs|
  {
    if cs != [] {
      RemovedNone(cs[1..], id);
      assert cs == [cs[0]] + cs[1..];
    }
  }

  /** The selection after a removal: cleared when it has the removed id. */
  function Deselected(selected: Option<Company>, id: string): (r: Option<Company>)
    ensures r.Some? ==> r.value.id != id && r == selected
    ensures selected.Some? && selected.value.id != id ==> r == selected
  {
    if selected.Some? && selected.value.id == id then None else selected
  }

  /** The selection after an update: the payload when the selected company has its id. */
  function Reselected(selected: Option<Company>, c: Company): (r: Option<Company>)
    ensures selected.None? ==> r.None?
    ensures selected.Some? && selected.value.id == c.id ==> r == Some(c)
    ensures selected.Some? && selected.value.id != c.id ==> r == selected
  {
    if selected.Some? && selected.value.id == c.id then Some(c) else selected
  }

  // ---------------------------------------------------------------------------
  // Filters

  /** `{ ...filters, ...patch }`: the patch's keys in its order, each set on the filters. */
  function Merged(filters: Filters, patch: Filters): Filters
    decreases |patch|
  {
    if patch == [] then filters else Merged(Js.Set(filters, patch[0].0, patch[0].1), patch[1..])
  }

  /** A key the patch holds takes the patch's value; every other key keeps the filters'
      value. */
  lemma {:induction false} MergedProps(filters: Filters, patch: Filters, key: string)
    requires BusinessSearch.DistinctKeys(patch)
    ensures BusinessSearch.HasKey(patch, key) ==> Js.FieldValue(Merged(filters, patch), key) == Js.FieldValue(patch, key)
    ensures !BusinessSearch.HasKey(patch, key) ==> Js.FieldValue(Merged(filters, patch), key) == Js.FieldValue(filters, key)
    decreases |patch|
  {
    if patch != [] {
      var rest := patch[1..];
      assert BusinessSearch.DistinctKeys(rest) by {
        forall i, j | 0 <= i < j < |rest| ensures rest[i].0 != rest[j].0 {
          assert rest[i] == patch[i + 1] && rest[j] == patch[j + 1];
        }
      }
      MergedProps(Js.Set(filters, patch[0].0, patch[0].1), rest, key);
      if key == patch[0].0 {
        assert !BusinessSearch.HasKey(rest, key) by {
          forall i | 0 <= i < |rest| ensures rest[i].0 != key {
            assert rest[i] == patch[i + 1];
          }
        }
      } else {
        assert BusinessSearch.HasKey(patch, key) <==> BusinessSearch.HasKey(rest, key) by {
          if BusinessSearch.HasKey(patch, key) {
            var i :| 0 <= i < |patch| && patch[i].0 == key;
            assert rest[i - 1] == patch[i];
          }
          if BusinessSearch.HasKey(rest, key) {
            var i :| 0 <= i < |rest| && rest[i].0 == key;
            assert patch[i + 1] == rest[i];
          }
        }
      }
    }
  }

  // ---------------------------------------------------------------------------
  // Recent searches

  predicate Differs(q: string, s: string) { s != q }

  /** The trimmed, non-blank query put first, its other copies dropped, the list capped. */
  function Pushed(recent: seq<string>, q: string): seq<string> {
    var all := [q] + Seqs.Where(recent, s => Differs(q, s));
    if |all| > MAX_RECENT then all[..MAX_RECENT] else all
  }

  /** `addRecentSearch` on the history. */
  function RecentAdded(recent: seq<string>, query: string): seq<string> {
    var q := Str.Trim(query);
    if q == "" then recent else Pushed(recent, q)
  }

  predicate NoRepeats(xs: seq<string>) {
    forall i, j :: 0 <= i < j < |xs| ==> xs[i] != xs[j]
  }

  /** The query comes first, then the first nine earlier entries that differ from it, in
      their earlier order; when fewer than ten are kept, every such entry is kept. */
  lemma PushedProps(recent: seq<string>, q: string)
    ensures var r := Pushed(recent, q);
      |r| <= MAX_RECENT && r[0] == q
      && (forall j :: 1 <= j < |r| ==> r[j] != q && r[j] in recent)
    ensures var r := Pushed(recent, q);
      var kept := Seqs.Where(recent, s => Differs(q, s));
      && r[1..] == (if |kept| > MAX_RECENT - 1 then kept[..MAX_RECENT - 1] else kept)
      && Dedupe.Subseq(r[1..], recent)
      && (|r| < MAX_RECENT ==> forall s :: s in recent && s != q ==> s in r)
  {
    var kept := Seqs.Where(recent, s => Differs(q, s));
    var r := Pushed(recent, q);
    assert r[1..] == (if |kept| > MAX_RECENT - 1 then kept[..MAX_RECENT - 1] else kept);
    Seqs.WhereOrder(recent, s => Differs(q, s));
    if |kept| > MAX_RECENT - 1 {
      Dedupe.SubseqPrefix(kept, recent, MAX_RECENT - 1);
    }
    if |r| < MAX_RECENT {
      forall s | s in recent && s != q ensures s in r {
        assert s in kept;
        assert s in r[1..];
      }
    }
    forall j | 1 <= j < |r| ensures r[j] != q && r[j] in recent {
      assert r[j] == kept[j - 1];
      assert kept[j - 1] in kept;
    }
  }

  lemma PushedNoRepeats(recent: seq<string>, q: string)
    requires NoRepeats(recent)
    ensures NoRepeats(Pushed(recent, q))
  {
    var kept := Seqs.Where(recent, s => Differs(q, s));
    var r := Pushed(recent, q);
    WhereNoRepeats(recent, q);
    forall i, j | 0 <= i < j < |r| ensures r[i] != r[j] {
      assert r[j] == kept[j - 1];
      assert kept[j - 1] in kept;
      if i > 0 {
        assert r[i] == kept[i - 1];
      }
    }
  }

  /** A blank query leaves the history alone. Otherwise the trimmed query comes first, no
      other copy of it remains, every other entry was there before, at most ten are kept,
      and a history without repeats stays without repeats. */
  lemma RecentAddedProps(recent: seq<string>, query: string)
    ensures Str.Trim(query) == "" ==> RecentAdded(recent, query) == recent
    ensures Str.Trim(query) != "" ==>
      var r := RecentAdded(recent, query);
      |r| <= MAX_RECENT && r[0] == Str.Trim(query)
      && (forall j :: 1 <= j < |r| ==> r[j] != Str.Trim(query) && r[j] in recent)
    ensures Str.Trim(query) != "" ==>
      var r := RecentAdded(recent, query);
      var kept := Seqs.Where(recent, s => Differs(Str.Trim(query), s));
      && r[1..] == (if |kept| > MAX_RECENT - 1 then kept[..MAX_RECENT - 1] else kept)
      && Dedupe.Subseq(r[1..], recent)
      && (|r| < MAX_RECENT ==> forall s :: s in recent && s != Str.Trim(query) ==> s in r)
    ensures NoRepeats(recent) ==> NoRepeats(RecentAdded(recent, query))
  {
    var q := Str.Trim(query);
    if q != "" {
      PushedProps(recent, q);
      if NoRepeats(recent) {
        PushedNoRepeats(recent, q);
      }
    }
  }

  /** Searching again for the most recent query changes nothing. */
  lemma RecentAddedAgain(recent: seq<string>, query: string)
    requires Str.Trim(query) != "" && NoRepeats(recent)
    ensures RecentAdded(RecentAdded(recent, query), query) == RecentAdded(recent, query)
  {
    var q := Str.Trim(query);
    var r := RecentAdded(recent, query);
    RecentAddedProps(recent, query);
    var kept := Seqs.Where(r, s => Differs(q, s));
    assert r == [r[0]] + r[1..];
    assert kept == r[1..] by {
      assert Seqs.Where(r, s => Differs(q, s)) == Seqs.Where(r[1..], s => Differs(q, s));
      WhereAll(r[1..], q);
    }
  }

  lemma {:induction false} WhereAll(xs: seq<string>, q: string)
    requires forall j :: 0 <= j < |xs| ==> xs[j] != q
    ensures Seqs.Where(xs, s => Differs(q, s)) == xs
    decreases |xs|
  {
    if xs != [] {
      WhereAll(xs[1..], q);
      assert xs == [xs[0]] + xs[1..];
    }
  }

  lemma {:induction false} WhereNoRepeats(xs: seq<string>, q: string)
    requires NoRepeats(xs)
    ensures NoRepeats(Seqs.Where(xs, s => Differs(q, s)))
    decreases |xs|
  {
    if xs != [] {
      var tail := xs[1..];
      assert NoRepeats(tail) by {
        forall i, j | 0 <= i < j < |tail| ensures tail[i] != tail[j] {
          assert tail[i] == xs[i + 1] && tail[j] == xs[j + 1];
        }
      }
      WhereNoRepeats(tail, q);
      assert xs[0] !in tail by {
        forall j | 0 <= j < |tail| ensures tail[j] != xs[0] {
          assert tail[j] == xs[j + 1];
        }
      }
      var rest := Seqs.Where(tail, s => Differs(q, s));
      var r := Seqs.Where(xs, s => Differs(q, s));
      assert r == (if Differs(q, xs[0]) then [xs[0]] else []) + rest;
      if Differs(q, xs[0]) {
        forall i, j | 0 <= i < j < |r| ensures r[i] != r[j] {
          assert r[j] == rest[j - 1] && rest[j - 1] in rest;
          if i > 0 {
            assert r[i] == rest[i - 1];
          }
        }
      }
    }
  }

  class CompaniesStore {
    var companies: seq<Company>
    var selectedCompany: Option<Company>
    var searchResults: Option<Page>
    var filters: Filters
    var isLoading: bool
    var error: Option<string>
    var recentSearches: seq<string>

    function State(): Companies
      reads this
    {
      Companies(companies, selectedCompany, searchResults, filters, isLoading, error, recentSearches)
    }

    /** The store as created, with the stored history. */
    constructor(recent: seq<string>)
      ensures State() == Initial(recent)
    {
      companies := [];
      selectedCompany := None;
      searchResults := None;
      filters := [];
      isLoading := false;
      error := None;
      recentSearches := recent;
    }

    /** `setLoading`: starting to load clears the error. */
    method SetLoading(b: bool)
      modifies this
      ensures State() == old(State()).(isLoading := b, error := if b then None else old(error))
    {
      isLoading := b;
      if b {
        error := None;
      }
    }

    method SetError(message: string)
      modifies this
      ensures State() == old(State()).(error := Some(message), isLoading := false)
    {
      error := Some(message);
      isLoading := false;
    }

    method ClearError()
      modifies this
      ensures State() == old(State()).(error := None)
    {
      error := None;
    }

    method SetCompanies(cs: seq<Company>)
      modifies this
      ensures State() == old(State()).(companies := cs, isLoading := false, error := None)
    {
      companies := cs;
      isLoading := false;
      error := None;
    }

    /** `addCompany`: the company goes first. */
    method AddCompany(c: Company)
      modifies this
      ensures State() == old(State()).(companies := [c] + old(companies))
    {
      companies := [c] + companies;
    }

    /** `updateCompany`: a search for the first company with the id, then the selection. */
    method UpdateCompany(c: Company)
      modifies this
      ensures State() == old(State()).(companies := Replaced(old(companies), c),
        selectedCompany := Reselected(old(selectedCompany), c))
    {
      var index := 0;
      while index < |companies| && companies[index].id != c.id
        invariant index <= |companies|
        invariant FirstWithId(companies, c.id, 0) == FirstWithId(companies, c.id, index)
      {
        index := index + 1;
      }
      if index < |companies| {
        companies := companies[index := c];
      }
      if selectedCompany.Some? && selectedCompany.value.id == c.id {
        selectedCompany := Some(c);
      }
    }

    method RemoveCompany(id: string)
      modifies this
      ensures State() == old(State()).(companies := Removed(old(companies), id),
        selectedCompany := Deselected(old(selectedCompany), id))
    {
      companies := Removed(companies, id);
      if selectedCompany.Some? && selectedCompany.value.id == id {
        selectedCompany := None;
      }
    }

    method SetSelectedCompany(c: Option<Company>)
      modifies this
      ensures State() == old(State()).(selectedCompany := c)
    {
      selectedCompany := c;
    }

    method SetSearchResults(p: Page)
      modifies this
      ensures State() == old(State()).(searchResults := Some(p), isLoading := false, error := None)
    {
      searchResults := Some(p);
      isLoading := false;
      error := None;
    }

    method ClearSearchResults()
      modifies this
      ensures State() == old(State()).(searchResults := None)
    {
      searchResults := None;
    }

    method SetFilters(f: Filters)
      modifies this
      ensures State() == old(State()).(filters := f)
    {
      filters := f;
    }

    method UpdateFilters(patch: Filters)
      modifies this
      ensures State() == old(State()).(filters := Merged(old(filters), patch))
    {
      filters := Merged(filters, patch);
    }

    method ClearFilters()
      modifies this
      ensures State() == old(State()).(filters := [])
    {
      filters := [];
    }

    /** `addRecentSearch`; writing the history back to browser storage is left out. */
    method AddRecentSearch(query: string)
      modifies this
      ensures State() == old(State()).(recentSearches := RecentAdded(old(recentSearches), query))
    {
      recentSearches := RecentAdded(recentSearches, query);
    }

    method ClearRecentSearches()
      modifies this
      ensures State() == old(State()).(recentSearches := [])
    {
      recentSearches := [];
    }

    /** `setCompaniesFromSearch`: the page becomes the search results, and also the company
        list when that is empty. */
    method SetCompaniesFromSearch(p: Page)
      modifies this
      ensures State() == old(State()).(searchResults := Some(p),
        companies := if old(companies) == [] then p.data else old(companies),
        isLoading := false, error := None)
    {
      searchResults := Some(p);
      if |companies| == 0 {
        companies := p.data;
      }
      isLoading := false;
      error := None;
    }
  }
}
