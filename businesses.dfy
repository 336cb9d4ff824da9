/** The businesses endpoint of api/businesses.ts: request normalisation, the query it
    builds (kept as the list of clauses applied to the Supabase query builder), pagination,
    the record transform with its address fallback, the filter options and the analytics
    aggregation. The database's replies are parameters. */
module Businesses {
  import opened Wrappers
  import Str
  import Js
  import Tally
  import Ranking
  import Seqs
  import Grouping

  // ---------------------------------------------------------------- parseAddress

  datatype Address = Address(line1: string, line2: string, city: string, state: string, zipCode: string)

  const NO_ADDRESS := Address("Address not available", "", "", "", "")

  function TrimAll(parts: seq<string>): (r: seq<string>)
    ensures |r| == |parts| && forall i :: 0 <= i < |parts| ==> r[i] == Str.Trim(parts[i])
  {
    seq(|parts|, i requires 0 <= i < |parts| => Str.Trim(parts[i]))
  }

  /** The trimmed comma-separated parts of a headquarters text. */
  function Parts(headquarters: string): seq<string> {
    TrimAll(Str.SplitOn(Str.Trim(headquarters), ','))
  }

  /** `parseAddress`. */
  function ParseAddress(headquarters: string): (a: Address)
    ensures a.line2 == ""
    ensures Str.IsBlank(headquarters) ==> a == NO_ADDRESS
    ensures !Str.IsBlank(headquarters) && |Parts(headquarters)| >= 3 ==>
      var p := Parts(headquarters);
      a == Address(p[0], "", p[1], p[2], if |p| > 3 then p[3] else "")
    ensures !Str.IsBlank(headquarters) && |Parts(headquarters)| == 2 ==>
      var p := Parts(headquarters);
      a == Address(p[0], "", p[1], "NC", "")
    ensures !Str.IsBlank(headquarters) && |Parts(headquarters)| < 2 ==>
      var cleaned := Str.Trim(headquarters);
      if |cleaned| < 50 && !Str.HasDigit(cleaned) then a == Address("", "", cleaned, "NC", "")
      else a == Address(cleaned, "", "", "NC", "")
  {
    Str.TrimEmptyIffBlank(headquarters);
    if headquarters == "" || Str.Trim(headquarters) == "" then NO_ADDRESS
    else
      var cleaned := Str.Trim(headquarters);
      var parts := Parts(headquarters);
      if |parts| >= 3 then Address(parts[0], "", parts[1], parts[2], if |parts| > 3 then parts[3] else "")
      else if |parts| == 2 then Address(parts[0], "", parts[1], "NC", "")
      else if |cleaned| < 50 && !Str.HasDigit(cleaned) then Address("", "", cleaned, "NC", "")
      else Address(cleaned, "", "", "NC", "")
  }

  /** A headquarters field as written in the data: street, city and state separated by
      ", ". */
  function RenderAddress(line1: string, city: string, state: string): string {
    line1 + ", " + city + ", " + state
  }

  /** A part that survives splitting and trimming unchanged. */
  predicate CleanPart(p: string) { ',' !in p && Str.Trim(p) == p }

  /** Parsing a rendered headquarters gives back its street, city and state. */
  lemma ParseRendered(line1: string, city: string, state: string)
    requires CleanPart(line1) && CleanPart(city) && CleanPart(state) && line1 != "" && state != ""
    ensures ParseAddress(RenderAddress(line1, city, state)) == Address(line1, "", city, state, "")
  {
    var hq := RenderAddress(line1, city, state);
    RenderedTrimmed(line1, city, state);
    RenderedParts(line1, city, state);
    assert !Str.IsBlank(hq) by { assert !Str.IsSpace(hq[0]); }
  }

  lemma RenderedTrimmed(line1: string, city: string, state: string)
    requires CleanPart(line1) && CleanPart(state) && line1 != "" && state != ""
    ensures var hq := RenderAddress(line1, city, state);
      Str.Trim(hq) == hq && hq != [] && hq[0] == line1[0] && !Str.IsSpace(hq[0])
  {
    var hq := RenderAddress(line1, city, state);
    Str.TrimShape(line1);
    Str.TrimShape(state);
    assert hq[0] == line1[0] && hq[|hq| - 1] == state[|state| - 1];
    Str.TrimNoOuterSpace(hq);
  }

  lemma RenderedParts(line1: string, city: string, state: string)
    requires CleanPart(line1) && CleanPart(city) && CleanPart(state)
    requires Str.Trim(RenderAddress(line1, city, state)) == RenderAddress(line1, city, state)
    ensures Parts(RenderAddress(line1, city, state)) == [line1, city, state]
  {
    var hq := RenderAddress(line1, city, state);
    var pieces := [line1, " " + city, " " + state];
    assert ',' !in " " + city && ',' !in " " + state;
    RenderedJoin(line1, city, state);
    Str.SplitOnJoin(pieces, ',');
    Str.TrimLeadSpace(city);
    Str.TrimLeadSpace(state);
  }

  lemma RenderedJoin(line1: string, city: string, state: string)
    ensures Str.Join([line1, " " + city, " " + state], ",") == RenderAddress(line1, city, state)
  {
    var pieces := [line1, " " + city, " " + state];
    Str.JoinCons(line1, pieces[1..], ",");
    Str.JoinCons(" " + city, [" " + state], ",");
    assert pieces == [line1] + pieces[1..];
    assert pieces[1..] == [" " + city] + [" " + state];
  }

  /** The address as the object put into the response. */
  function AddressValue(a: Address): Js.Value {
    Js.Obj([("line1", Js.Text(a.line1)), ("line2", Js.Text(a.line2)), ("city", Js.Text(a.city)),
            ("state", Js.Text(a.state)), ("zipCode", Js.Text(a.zipCode))])
  }

  // ---------------------------------------------------------------- transformBusinessData

  type Record = seq<(string, Js.Value)>

  function Field(b: Record, key: string): Js.Value { Js.FieldValue(b, key) }

  /** `address.zipCode = address.zip_code` when only `zip_code` is set. */
  function WithZipCode(address: Js.Value): (r: Js.Value)
    ensures address.Obj? && Js.Truthy(Js.Get(address, "zip_code")) && !Js.Truthy(Js.Get(address, "zipCode")) ==>
      r.Obj? && Js.Get(r, "zipCode") == Js.Get(address, "zip_code")
      && forall k :: k != "zipCode" ==> Js.Get(r, k) == Js.Get(address, k)
    ensures !(address.Obj? && Js.Truthy(Js.Get(address, "zip_code")) && !Js.Truthy(Js.Get(address, "zipCode"))) ==>
      r == address
  {
    if address.Obj? && Js.Truthy(Js.Get(address, "zip_code")) && !Js.Truthy(Js.Get(address, "zipCode")) then
      Js.Obj(Js.Set(address.fields, "zipCode", Js.Get(address, "zip_code")))
    else address
  }

  /** The joined address, or the one parsed from the headquarters text. */
  function AddressOf(b: Record): Js.Value {
    WithZipCode(Js.Or(Field(b, "addresses"), AddressValue(ParseAddress(Js.TextOr(Field(b, "headquarters"), "")))))
  }

  /** `business.reviews?.length || 0`. */
  function ReviewsLength(v: Js.Value): int {
    match v
    case Arr(items) => |items|
    case Text(s) => |s|
    case _ => 0
  }

  /** The keys `transformBusinessData` writes after spreading the record, in order, each once. */
  const OVERRIDE_KEYS := ["address", "employees", "monthlyRevenue", "rating", "reviewCount", "hours",
    "squareFeet", "rentPerSqFt", "annualRent", "grossMargin", "netMargin", "revenueGrowth",
    "revenuePerEmployee", "businessAge", "operatingCosts", "industryMetrics", "yearEstablished", "reviews"]

  /** The values written under `OVERRIDE_KEYS`, position by position. */
  function OverrideValues(b: Record): (r: seq<Js.Value>)
    ensures |r| == |OVERRIDE_KEYS|
  {
    var ext := Field(b, "ext_financials");
    var metrics := Field(b, "metrics");
    [AddressOf(b),
     Field(b, "employees_count"),
     Js.Coalesce(Js.Get(ext, "monthlyRevenue"), Js.Arr([])),
     Js.Get(ext, "rating"),
     Js.Coalesce(Js.Get(ext, "reviewCount"), Js.Num(ReviewsLength(Field(b, "reviews")))),
     Js.Get(ext, "hours"),
     Js.Get(metrics, "squareFeet"),
     Js.Get(metrics, "rentPerSqFt"),
     Js.Get(metrics, "annualRent"),
     Js.Get(metrics, "grossMargin"),
     Js.Get(metrics, "netMargin"),
     Js.Get(metrics, "revenueGrowth"),
     Js.Get(ext, "revenuePerEmployee"),
     Js.Get(metrics, "businessAge"),
     Js.Get(metrics, "operatingCosts"),
     Js.Get(metrics, "industryMetrics"),
     Field(b, "founded_year"),
     Js.Or(Field(b, "reviews"), Js.Arr([]))]
  }

  function Zip(keys: seq<string>, values: seq<Js.Value>): (r: seq<(string, Js.Value)>)
    requires |keys| == |values|
    ensures |r| == |keys| && forall i :: 0 <= i < |keys| ==> r[i] == (keys[i], values[i])
  {
    seq(|keys|, i requires 0 <= i < |keys| => (keys[i], values[i]))
  }

  /** The properties `transformBusinessData` writes after spreading the record, in order. */
  function Overrides(b: Record): seq<(string, Js.Value)> {
    Zip(OVERRIDE_KEYS, OverrideValues(b))
  }

  lemma OverrideKeysAre(b: Record)
    ensures Js.Keys(Overrides(b)) == OVERRIDE_KEYS
  {
    var ov := Overrides(b);
    assert forall i :: 0 <= i < |ov| ==> Js.Keys(ov)[i] == OVERRIDE_KEYS[i];
  }

  /** The derived fields the lemmas below use are written once, so no later write hides
      them. */
  lemma WrittenOnce()
    ensures forall j :: 1 <= j < |OVERRIDE_KEYS| ==> OVERRIDE_KEYS[j] != "address"
    ensures forall j :: 2 <= j < |OVERRIDE_KEYS| ==> OVERRIDE_KEYS[j] != "employees"
    ensures forall j :: 5 <= j < |OVERRIDE_KEYS| ==> OVERRIDE_KEYS[j] != "reviewCount"
    ensures OVERRIDE_KEYS[17] != "yearEstablished"
  {
  }

  /** `{ ...base, k1: v1, k2: v2, ... }`. */
  function SetAll(base: Record, ov: seq<(string, Js.Value)>): Record
    decreases |ov|
  {
    if ov == [] then base else SetAll(Js.Set(base, ov[0].0, ov[0].1), ov[1..])
  }

  /** A key no override writes keeps the spread value. */
  lemma {:induction false} SetAllOther(base: Record, ov: seq<(string, Js.Value)>, key: string)
    requires key !in Js.Keys(ov)
    ensures Js.FieldValue(SetAll(base, ov), key) == Js.FieldValue(base, key)
    decreases |ov|
  {
    if ov != [] {
      assert Js.Keys(ov)[0] == ov[0].0;
      assert Js.Keys(ov[1..]) == Js.Keys(ov)[1..];
      SetAllOther(Js.Set(base, ov[0].0, ov[0].1), ov[1..], key);
    }
  }

  /** An override no later one rewrites gives the result its value. */
  lemma {:induction false} SetAllAt(base: Record, ov: seq<(string, Js.Value)>, i: nat)
    requires i < |ov| && forall j :: i < j < |ov| ==> ov[j].0 != ov[i].0
    ensures Js.FieldValue(SetAll(base, ov), ov[i].0) == ov[i].1
    decreases |ov|
  {
    if i == 0 {
      assert Js.Keys(ov[1..]) == Js.Keys(ov)[1..];
      SetAllOther(Js.Set(base, ov[0].0, ov[0].1), ov[1..], ov[0].0);
    } else {
      assert ov[1..][i - 1] == ov[i];
      SetAllAt(Js.Set(base, ov[0].0, ov[0].1), ov[1..], i - 1);
    }
  }

  /** `transformBusinessData`. When the record has a joined address, the zip-code copy is
      made on that same object, so the record's own `addresses` shows it as well. */
  function TransformBusinessData(b: Record): Record {
    var base := if Js.Truthy(Field(b, "addresses")) then Js.Set(b, "addresses", AddressOf(b)) else b;
    SetAll(base, Overrides(b))
  }

  lemma TransformAt(b: Record, i: nat)
    requires i < |OVERRIDE_KEYS| && forall j :: i < j < |OVERRIDE_KEYS| ==> OVERRIDE_KEYS[j] != OVERRIDE_KEYS[i]
    ensures Js.FieldValue(TransformBusinessData(b), OVERRIDE_KEYS[i]) == Overrides(b)[i].1
  {
    var base := if Js.Truthy(Field(b, "addresses")) then Js.Set(b, "addresses", AddressOf(b)) else b;
    OverrideAt(base, OverrideValues(b), i);
  }

  /** Writing the override keys in order, a key no later write repeats ends with its value. */
  lemma OverrideAt(base: Record, values: seq<Js.Value>, i: nat)
    requires |values| == |OVERRIDE_KEYS|
    requires i < |OVERRIDE_KEYS| && forall j :: i < j < |OVERRIDE_KEYS| ==> OVERRIDE_KEYS[j] != OVERRIDE_KEYS[i]
    ensures Js.FieldValue(SetAll(base, Zip(OVERRIDE_KEYS, values)), OVERRIDE_KEYS[i]) == values[i]
  {
    var ov := Zip(OVERRIDE_KEYS, values);
    assert forall j :: 0 <= j < |ov| ==> ov[j].0 == OVERRIDE_KEYS[j];
    SetAllAt(base, ov, i);
  }

  /** The fields `transformBusinessData` derives: the address, `employees` from
      `employees_count`, `yearEstablished` from `founded_year`. */
  lemma TransformFields(b: Record)
    ensures Js.FieldValue(TransformBusinessData(b), "address") == AddressOf(b)
    ensures Js.FieldValue(TransformBusinessData(b), "employees") == Field(b, "employees_count")
    ensures Js.FieldValue(TransformBusinessData(b), "yearEstablished") == Field(b, "founded_year")
  {
    TransformAddressField(b);
    TransformEmployees(b);
    TransformYear(b);
  }

  lemma TransformEmployees(b: Record)
    ensures Js.FieldValue(TransformBusinessData(b), "employees") == Field(b, "employees_count")
  {
    WrittenOnce();
    TransformAt(b, 1);
  }

  lemma TransformYear(b: Record)
    ensures Js.FieldValue(TransformBusinessData(b), "yearEstablished") == Field(b, "founded_year")
  {
    WrittenOnce();
    TransformAt(b, 16);
  }

  lemma TransformAddressField(b: Record)
    ensures Js.FieldValue(TransformBusinessData(b), "address") == AddressOf(b)
  {
    WrittenOnce();
    TransformAt(b, 0);
  }

  /** The review count comes from `ext_financials`, else from the number of reviews; the
      reviews default to an empty array. */
  lemma TransformReviews(b: Record)
    ensures var ext := Field(b, "ext_financials");
      Js.FieldValue(TransformBusinessData(b), "reviewCount") ==
        if Js.IsNullish(Js.Get(ext, "reviewCount")) then Js.Num(ReviewsLength(Field(b, "reviews")))
        else Js.Get(ext, "reviewCount")
    ensures Js.FieldValue(TransformBusinessData(b), "reviews") ==
      if Js.Truthy(Field(b, "reviews")) then Field(b, "reviews") else Js.Arr([])
  {
    WrittenOnce();
    TransformAt(b, 4);
    TransformAt(b, 17);
  }

  /** Every other property of the record is carried over by the spread. */
  lemma TransformKeeps(b: Record, key: string)
    requires key !in OVERRIDE_KEYS && key != "addresses"
    ensures Js.FieldValue(TransformBusinessData(b), key) == Field(b, key)
  {
    var base := if Js.Truthy(Field(b, "addresses")) then Js.Set(b, "addresses", AddressOf(b)) else b;
    OverrideKeysAre(b);
    SetAllOther(base, Overrides(b), key);
  }

  lemma AddressValueNoZip(a: Address)
    ensures Js.Get(AddressValue(a), "zip_code") == Js.Undefined
    ensures WithZipCode(AddressValue(a)) == AddressValue(a)
  {
  }

  /** A joined address with only `zip_code` gets `zipCode` as well; an address parsed from
      the headquarters text is used when there is no joined one. */
  lemma TransformAddress(b: Record)
    ensures var a := Field(b, "addresses");
      a.Obj? && Js.Truthy(Js.Get(a, "zip_code")) && !Js.Truthy(Js.Get(a, "zipCode")) ==>
        Js.Get(AddressOf(b), "zipCode") == Js.Get(a, "zip_code")
    ensures !Js.Truthy(Field(b, "addresses")) ==>
      AddressOf(b) == AddressValue(ParseAddress(Js.TextOr(Field(b, "headquarters"), "")))
  {
    var parsed := ParseAddress(Js.TextOr(Field(b, "headquarters"), ""));
    AddressValueNoZip(parsed);
    JoinedZip(Field(b, "addresses"), AddressValue(parsed));
  }

  lemma JoinedZip(a: Js.Value, fallback: Js.Value)
    ensures a.Obj? && Js.Truthy(Js.Get(a, "zip_code")) && !Js.Truthy(Js.Get(a, "zipCode")) ==>
      Js.Get(WithZipCode(Js.Or(a, fallback)), "zipCode") == Js.Get(a, "zip_code")
  {
  }

  // ---------------------------------------------------------------- request normalisation

  /** A number as JavaScript's `parseInt` leaves it. */
  datatype Number = NaN | Int(i: int)

  function ParseNumber(s: string): (r: Number)
    ensures r.Int? <==> Str.ParseInt(s).Some?
    ensures r.Int? ==> r.i == Str.ParseInt(s).value
  {
    match Str.ParseInt(s) case None => NaN case Some(i) => Int(i)
  }

  datatype Filters = Filters(
    industry: Option<seq<string>>, location: Option<seq<string>>,
    minRevenue: Option<int>, maxRevenue: Option<int>, minEmployees: Option<int>, maxEmployees: Option<int>,
    query: Option<string>)

  const NO_FILTERS := Filters(None, None, None, None, None, None, None)

  datatype Request = Request(filters: Filters, page: Number, limit: Number, sortBy: string, sortOrder: string)

  /** A query-string parameter: absent, given once, or repeated. */
  datatype QueryValue = Absent | Single(s: string) | Multi(items: seq<string>)

  /** The GET query string; the paging and sorting parameters are taken as given once. */
  datatype GetQuery = GetQuery(
    industry: QueryValue, location: QueryValue,
    minRevenue: Option<string>, maxRevenue: Option<string>, minEmployees: Option<string>, maxEmployees: Option<string>,
    query: Option<string>, page: Option<string>, limit: Option<string>, sortBy: Option<string>, sortOrder: Option<string>)

  /** `v ? (Array.isArray(v) ? v : [v]) : undefined`. */
  function ListParam(v: QueryValue): (r: Option<seq<string>>)
    ensures v.Absent? || v == Single("") <==> r.None?
    ensures v.Single? && v.s != "" ==> r == Some([v.s])
    ensures v.Multi? ==> r == Some(v.items)
  {
    match v
    case Absent => None
    case Single(s) => if s == "" then None else Some([s])
    case Multi(items) => Some(items)
  }

  /** `v ? parseInt(v) : undefined`, with NaN as `None`: both are skipped by the filters. */
  function NumberParam(v: Option<string>): Option<int> {
    if v.Some? && v.value != "" then Str.ParseInt(v.value) else None
  }

  /** The GET branch of `handler`: defaults "1", "20", "revenue" and "desc" for absent
      paging and sorting parameters. */
  function NormalizeGet(q: GetQuery): (r: Request)
    ensures r.filters.industry.None? <==> q.industry.Absent? || q.industry == Single("")
    ensures q.page.None? ==> r.page == Int(1)
    ensures q.limit.None? ==> r.limit == Int(20)
    ensures q.sortBy.None? ==> r.sortBy == "revenue"
    ensures q.sortOrder.None? ==> r.sortOrder == "desc"
    ensures forall n: nat :: q.page == Some(Str.NatToString(n)) ==> r.page == Int(n)
  {
    Str.ParseIntNat(1);
    Str.ParseIntNat(20);
    assert Str.NatToString(1) == "1" && Str.NatToString(20) == "20";
    forall n: nat | q.page == Some(Str.NatToString(n)) ensures Str.ParseInt(q.page.value) == Some(n) {
      Str.ParseIntNat(n);
    }
    Request(
      Filters(ListParam(q.industry), ListParam(q.location),
              NumberParam(q.minRevenue), NumberParam(q.maxRevenue),
              NumberParam(q.minEmployees), NumberParam(q.maxEmployees), q.query),
      ParseNumber(q.page.GetOr("1")), ParseNumber(q.limit.GetOr("20")),
      q.sortBy.GetOr("revenue"), q.sortOrder.GetOr("desc"))
  }

  /** A POST body; absent members take the defaults of `getBusinesses`. */
  datatype PostBody = PostBody(filters: Option<Filters>, page: Option<int>, limit: Option<int>,
                       sortBy: Option<string>, sortOrder: Option<string>)

  function FromBody(b: PostBody): (r: Request)
    ensures b.page.None? ==> r.page == Int(1)
    ensures b.limit.None? ==> r.limit == Int(20)
    ensures b.page.Some? ==> r.page == Int(b.page.value)
    ensures b.limit.Some? ==> r.limit == Int(b.limit.value)
  {
    Request(b.filters.GetOr(NO_FILTERS), Int(b.page.GetOr(1)), Int(b.limit.GetOr(20)),
            b.sortBy.GetOr("revenue"), b.sortOrder.GetOr("desc"))
  }

  // ---------------------------------------------------------------- the query

  datatype Clause =
    | Eq(column: string, value: string)
    | OrFilter(conditions: string)
    | Gte(column: string, bound: int)
    | Lte(column: string, bound: int)
    | Order(field: string, ascending: bool)
    | Range(from: int, to: int)
    | RangeNaN

  const VALID_SORT_FIELDS := ["name", "industry", "revenue", "employees_count", "founded_year", "created_at"]

  /** An unlisted sort field falls back to "revenue". */
  function SortField(sortBy: string): (r: string)
    ensures r in VALID_SORT_FIELDS
    ensures r == sortBy <==> sortBy in VALID_SORT_FIELDS
    ensures sortBy !in VALID_SORT_FIELDS ==> r == "revenue"
  {
    if sortBy in VALID_SORT_FIELDS then sortBy else "revenue"
  }

  function Conditions(values: seq<string>, render: string -> string): string {
    Str.Join(seq(|values|, i requires 0 <= i < |values| => render(values[i])), ",")
  }

  function IndustryCondition(ind: string): string { "industry.ilike.%" + ind + "%" }

  function LocationCondition(loc: string): string {
    "addresses.city.ilike.%" + loc + "%,addresses.state.ilike.%" + loc + "%,headquarters.ilike.%" + loc + "%"
  }

  function SearchCondition(term: string): string {
    "name.ilike.%" + term + "%,description.ilike.%" + term + "%,industry.ilike.%" + term + "%"
  }

  /** `(page - 1) * limit` through `offset + limit - 1`. */
  function RangeOf(page: Number, limit: Number): Clause {
    if page.Int? && limit.Int? then
      var offset := (page.i - 1) * limit.i;
      Range(offset, offset + limit.i - 1)
    else RangeNaN
  }

  /** Page p of size l asks for exactly l rows, right after the rows of page p - 1. */
  lemma PagesTile(p: int, l: int)
    requires l > 0
    ensures RangeOf(Int(p), Int(l)).to - RangeOf(Int(p), Int(l)).from + 1 == l
    ensures RangeOf(Int(p + 1), Int(l)).from == RangeOf(Int(p), Int(l)).to + 1
    ensures p >= 1 ==> RangeOf(Int(p), Int(l)).from >= 0
    ensures RangeOf(Int(1), Int(l)) == Range(0, l - 1)
  {
    assert (p + 1 - 1) * l == (p - 1) * l + l;
    if p >= 1 {
      assert (p - 1) * l >= 0;
    }
  }

  /** The `.or(...)` clauses of the industry, location and search filters, in that order. */
  function TextualClauses(f: Filters): seq<Clause> {
    (if f.industry.Some? && |f.industry.value| > 0 then [OrFilter(Conditions(f.industry.value, IndustryCondition))] else [])
    + (if f.location.Some? && |f.location.value| > 0 then [OrFilter(Conditions(f.location.value, LocationCondition))] else [])
    + (if f.query.Some? && f.query.value != "" then [OrFilter(SearchCondition(Str.Trim(f.query.value)))] else [])
  }

  /** A numeric bound is applied only when it is truthy: absent, NaN and 0 are skipped. */
  function Bound(column: string, v: Option<int>, lower: bool): seq<Clause> {
    if v.Some? && v.value != 0 then [if lower then Gte(column, v.value) else Lte(column, v.value)] else []
  }

  function NumericClauses(f: Filters): seq<Clause> {
    Bound("revenue", f.minRevenue, true) + Bound("revenue", f.maxRevenue, false)
    + Bound("employees_count", f.minEmployees, true) + Bound("employees_count", f.maxEmployees, false)
  }

  /** Active companies, the filter clauses, then the order and the page range. */
  function Assemble(textual: seq<Clause>, numeric: seq<Clause>, order: Clause, range: Clause): seq<Clause> {
    [Eq("status", "active")] + textual + numeric + [order, range]
  }

  /** The whole query: active companies, the filters, the order and the page range. */
  function QueryOf(request: Request): seq<Clause> {
    Assemble(TextualClauses(request.filters), NumericClauses(request.filters),
             Order(SortField(request.sortBy), request.sortOrder == "asc"), RangeOf(request.page, request.limit))
  }

  lemma AssembleParts(textual: seq<Clause>, numeric: seq<Clause>, order: Clause, range: Clause)
    ensures var q := Assemble(textual, numeric, order, range);
      && |q| == |textual| + |numeric| + 3 && q[0] == Eq("status", "active")
      && q[|q| - 2] == order && q[|q| - 1] == range
      && (forall i :: 0 < i <= |textual| ==> q[i] == textual[i - 1])
      && (forall i :: |textual| < i < |q| - 2 ==> q[i] == numeric[i - 1 - |textual|])
    ensures forall c :: c in Assemble(textual, numeric, order, range) <==>
      c == Eq("status", "active") || c in textual || c in numeric || c == order || c == range
  {
    var q := Assemble(textual, numeric, order, range);
    forall c ensures c in q <==> c == Eq("status", "active") || c in textual || c in numeric || c == order || c == range {
      assert q == [Eq("status", "active")] + (textual + (numeric + [order, range]));
    }
  }

  lemma TextualKinds(f: Filters)
    ensures forall c :: c in TextualClauses(f) ==> c.OrFilter?
  {
  }

  lemma NumericKinds(f: Filters)
    ensures forall c :: c in NumericClauses(f) ==> (c.Gte? || c.Lte?) && (c.column == "revenue" || c.column == "employees_count")
  {
  }

  lemma RangeKind(page: Number, limit: Number)
    ensures RangeOf(page, limit).Range? || RangeOf(page, limit).RangeNaN?
  {
  }

  /** The textual filters, appended to the query under construction. */
  method AddTextual(query: seq<Clause>, f: Filters) returns (query': seq<Clause>)
    ensures query' == query + TextualClauses(f)
  {
    query' := query;
    if f.industry.Some? && |f.industry.value| > 0 {
      query' := query' + [OrFilter(Conditions(f.industry.value, IndustryCondition))];
    }
    if f.location.Some? && |f.location.value| > 0 {
      query' := query' + [OrFilter(Conditions(f.location.value, LocationCondition))];
    }
    if f.query.Some? && f.query.value != "" {
      var searchTerm := Str.Trim(f.query.value);
      query' := query' + [OrFilter(SearchCondition(searchTerm))];
    }
  }

  /** One numeric bound, appended when it is truthy. */
  method AddBound(query: seq<Clause>, column: string, v: Option<int>, lower: bool) returns (query': seq<Clause>)
    ensures query' == query + Bound(column, v, lower)
  {
    query' := query;
    if v.Some? && v.value != 0 {
      query' := query' + [if lower then Gte(column, v.value) else Lte(column, v.value)];
    }
  }

  /** The query `getBusinesses` builds, clause by clause. */
  method BuildQuery(request: Request) returns (query: seq<Clause>)
    ensures query == QueryOf(request)
  {
    var f := request.filters;
    query := [Eq("status", "active")];
    query := AddTextual(query, f);
    query := AddBound(query, "revenue", f.minRevenue, true);
    query := AddBound(query, "revenue", f.maxRevenue, false);
    query := AddBound(query, "employees_count", f.minEmployees, true);
    query := AddBound(query, "employees_count", f.maxEmployees, false);
    var sortField := SortField(request.sortBy);
    query := query + [Order(sortField, request.sortOrder == "asc")];
    query := query + [RangeOf(request.page, request.limit)];
  }

  /** The query only ever selects active companies, and ends with the order and the range. */
  lemma QueryShape(request: Request)
    ensures var q := QueryOf(request);
      && |q| >= 3 && q[0] == Eq("status", "active")
      && q[|q| - 2] == Order(SortField(request.sortBy), request.sortOrder == "asc")
      && q[|q| - 1] == RangeOf(request.page, request.limit)
      && forall i :: 0 < i < |q| ==> !q[i].Eq?
  {
    var f := request.filters;
    var textual, numeric := TextualClauses(f), NumericClauses(f);
    var order, range := Order(SortField(request.sortBy), request.sortOrder == "asc"), RangeOf(request.page, request.limit);
    AssembleParts(textual, numeric, order, range);
    TextualKinds(f);
    NumericKinds(f);
    RangeKind(request.page, request.limit);
    var q := Assemble(textual, numeric, order, range);
    forall i | 0 < i < |q| ensures !q[i].Eq? {
      if i <= |textual| {
        assert q[i] in textual;
      } else if i < |q| - 2 {
        assert q[i] in numeric;
      }
    }
  }

  /** Each textual filter contributes its `.or(...)` clause exactly when it is given and
      non-empty, and no other `.or(...)` clause appears. */
  lemma QueryTextual(request: Request)
    ensures var f := request.filters; var q := QueryOf(request);
      && (f.industry.Some? && |f.industry.value| > 0 ==> OrFilter(Conditions(f.industry.value, IndustryCondition)) in q)
      && (f.location.Some? && |f.location.value| > 0 ==> OrFilter(Conditions(f.location.value, LocationCondition)) in q)
      && (f.query.Some? && f.query.value != "" ==> OrFilter(SearchCondition(Str.Trim(f.query.value))) in q)
      && forall c :: c in q && c.OrFilter? ==>
           (f.industry.Some? && |f.industry.value| > 0 && c.conditions == Conditions(f.industry.value, IndustryCondition))
           || (f.location.Some? && |f.location.value| > 0 && c.conditions == Conditions(f.location.value, LocationCondition))
           || (f.query.Some? && f.query.value != "" && c.conditions == SearchCondition(Str.Trim(f.query.value)))
  {
    var f := request.filters;
    var order, range := Order(SortField(request.sortBy), request.sortOrder == "asc"), RangeOf(request.page, request.limit);
    AssembleParts(TextualClauses(f), NumericClauses(f), order, range);
    NumericKinds(f);
    RangeKind(request.page, request.limit);
    TextualMember(f);
  }

  lemma TextualMember(f: Filters)
    ensures f.industry.Some? && |f.industry.value| > 0 ==> OrFilter(Conditions(f.industry.value, IndustryCondition)) in TextualClauses(f)
    ensures f.location.Some? && |f.location.value| > 0 ==> OrFilter(Conditions(f.location.value, LocationCondition)) in TextualClauses(f)
    ensures f.query.Some? && f.query.value != "" ==> OrFilter(SearchCondition(Str.Trim(f.query.value))) in TextualClauses(f)
    ensures forall c :: c in TextualClauses(f) ==>
           (f.industry.Some? && |f.industry.value| > 0 && c.conditions == Conditions(f.industry.value, IndustryCondition))
           || (f.location.Some? && |f.location.value| > 0 && c.conditions == Conditions(f.location.value, LocationCondition))
           || (f.query.Some? && f.query.value != "" && c.conditions == SearchCondition(Str.Trim(f.query.value)))
  {
  }

  /** Each of the four bounds holds its own clause and none of the others'. */
  lemma BoundsApart(f: Filters)
    ensures var lo, hi, elo, ehi := Gte("revenue", f.minRevenue.GetOr(0)), Lte("revenue", f.maxRevenue.GetOr(0)),
                 Gte("employees_count", f.minEmployees.GetOr(0)), Lte("employees_count", f.maxEmployees.GetOr(0));
      && (lo in Bound("revenue", f.minRevenue, true) <==> f.minRevenue.Some? && f.minRevenue.value != 0)
      && (hi in Bound("revenue", f.maxRevenue, false) <==> f.maxRevenue.Some? && f.maxRevenue.value != 0)
      && (elo in Bound("employees_count", f.minEmployees, true) <==> f.minEmployees.Some? && f.minEmployees.value != 0)
      && (ehi in Bound("employees_count", f.maxEmployees, false) <==> f.maxEmployees.Some? && f.maxEmployees.value != 0)
      && lo !in Bound("revenue", f.maxRevenue, false) + Bound("employees_count", f.minEmployees, true) + Bound("employees_count", f.maxEmployees, false)
      && hi !in Bound("revenue", f.minRevenue, true) + Bound("employees_count", f.minEmployees, true) + Bound("employees_count", f.maxEmployees, false)
      && elo !in Bound("revenue", f.minRevenue, true) + Bound("revenue", f.maxRevenue, false) + Bound("employees_count", f.maxEmployees, false)
      && ehi !in Bound("revenue", f.minRevenue, true) + Bound("revenue", f.maxRevenue, false) + Bound("employees_count", f.minEmployees, true)
  {
  }

  /** The bounds are the only comparison clauses of the query. */
  lemma ComparisonsAreBounds(request: Request, c: Clause)
    requires c.Gte? || c.Lte?
    ensures var f := request.filters;
      c in QueryOf(request) <==>
        c in Bound("revenue", f.minRevenue, true) || c in Bound("revenue", f.maxRevenue, false)
        || c in Bound("employees_count", f.minEmployees, true) || c in Bound("employees_count", f.maxEmployees, false)
  {
    var f := request.filters;
    var order, range := Order(SortField(request.sortBy), request.sortOrder == "asc"), RangeOf(request.page, request.limit);
    AssembleParts(TextualClauses(f), NumericClauses(f), order, range);
    TextualKinds(f);
    RangeKind(request.page, request.limit);
    NumericMember(f, c);
  }

  lemma NumericMember(f: Filters, c: Clause)
    ensures c in NumericClauses(f) <==>
      c in Bound("revenue", f.minRevenue, true) || c in Bound("revenue", f.maxRevenue, false)
      || c in Bound("employees_count", f.minEmployees, true) || c in Bound("employees_count", f.maxEmployees, false)
  {
  }

  /** A numeric bound appears in the query exactly when it is given and not 0. */
  lemma QueryNumeric(request: Request)
    ensures var f := request.filters; var q := QueryOf(request);
      && (f.minRevenue.Some? && f.minRevenue.value != 0 <==> Gte("revenue", f.minRevenue.GetOr(0)) in q)
      && (f.maxRevenue.Some? && f.maxRevenue.value != 0 <==> Lte("revenue", f.maxRevenue.GetOr(0)) in q)
      && (f.minEmployees.Some? && f.minEmployees.value != 0 <==> Gte("employees_count", f.minEmployees.GetOr(0)) in q)
      && (f.maxEmployees.Some? && f.maxEmployees.value != 0 <==> Lte("employees_count", f.maxEmployees.GetOr(0)) in q)
      && forall c :: c in q && (c.Gte? || c.Lte?) ==> c.column == "revenue" || c.column == "employees_count"
  {
    var f := request.filters;
    BoundsApart(f);
    ComparisonsAreBounds(request, Gte("revenue", f.minRevenue.GetOr(0)));
    ComparisonsAreBounds(request, Lte("revenue", f.maxRevenue.GetOr(0)));
    ComparisonsAreBounds(request, Gte("employees_count", f.minEmployees.GetOr(0)));
    ComparisonsAreBounds(request, Lte("employees_count", f.maxEmployees.GetOr(0)));
    forall c | c in QueryOf(request) && (c.Gte? || c.Lte?)
      ensures c.column == "revenue" || c.column == "employees_count"
    {
      ComparisonsAreBounds(request, c);
    }
  }

  /** `Math.ceil(count / limit)`; a zero or NaN limit gives no finite page count. */
  function TotalPages(count: nat, limit: Number): (r: Option<int>)
    ensures r.Some? <==> limit.Int? && limit.i != 0
    ensures limit.Int? && limit.i > 0 ==> r.value >= 0 && r.value * limit.i >= count && (r.value - 1) * limit.i < count
  {
    if limit.NaN? || limit.i == 0 then None
    else if limit.i > 0 then Some((count + limit.i - 1) / limit.i)
    else Some(-(count / -limit.i))
  }

  /** The last page holds the last row, and no page is empty but for the single page of
      an empty result. */
  lemma LastPageHoldsLastRow(count: nat, l: int)
    requires l > 0 && count > 0
    ensures var n := TotalPages(count, Int(l)).value;
      n >= 1 && RangeOf(Int(n), Int(l)).from <= count - 1 <= RangeOf(Int(n), Int(l)).to
  {
  }

  // ---------------------------------------------------------------- filter options

  datatype FilterOptions = FilterOptions(
    industries: seq<string>, locations: seq<string>, neighborhoods: seq<string>,
    businessTypes: seq<string>, clusters: seq<string>)

  const NO_OPTIONS := FilterOptions([], [], [], [], [])

  /** A row of `addresses` selected with a non-null city. */
  datatype AddressRow = AddressRow(city: string, state: Option<string>)

  /** The two lookups of `getFilterOptions`; `null` data is `None`, a thrown call `FilterThrew`. */
  datatype FilterReply = FilterRows(industries: Option<seq<string>>, addresses: Option<seq<AddressRow>>) | FilterThrew

  /** `.filter(Boolean)` on strings. */
  function NonEmpty(s: seq<string>): (r: seq<string>)
    ensures forall x :: x in r <==> x in s && x != ""
    decreases |s|
  {
    if s == [] then [] else (if s[0] != "" then [s[0]] else []) + NonEmpty(s[1..])
  }

  /** `[...new Set(values)].sort()`. */
  function UniqueSorted(values: seq<string>): seq<string> {
    Ranking.SortStrings(Tally.FirstSeen(values))
  }

  lemma UniqueSortedProps(values: seq<string>)
    ensures Ranking.SortedBy(UniqueSorted(values), Ranking.StrLe)
    ensures Tally.Distinct(UniqueSorted(values))
    ensures forall x :: x in UniqueSorted(values) <==> x in values
  {
    var d := Tally.FirstSeen(values);
    Tally.FirstSeenProps(values);
    Ranking.SortStringsSorted(d);
    Tally.DistinctMultiset(d, UniqueSorted(values));
    forall x ensures x in UniqueSorted(values) <==> x in d {
      assert x in UniqueSorted(values) <==> x in multiset(UniqueSorted(values));
      assert x in d <==> x in multiset(d);
    }
  }

  function Cities(rows: seq<AddressRow>): (r: seq<string>)
    ensures |r| == |rows| && forall i :: 0 <= i < |rows| ==> r[i] == rows[i].city
  {
    seq(|rows|, i requires 0 <= i < |rows| => rows[i].city)
  }

  /** A `null` state is as falsy as an empty one, and both are dropped. */
  function States(rows: seq<AddressRow>): (r: seq<string>)
    ensures |r| == |rows| && forall i :: 0 <= i < |rows| ==> r[i] == rows[i].state.GetOr("")
  {
    seq(|rows|, i requires 0 <= i < |rows| => rows[i].state.GetOr(""))
  }

  function LocationOptions(rows: seq<AddressRow>): seq<string> {
    var cities := NonEmpty(Tally.FirstSeen(Cities(rows)));
    var states := NonEmpty(Tally.FirstSeen(States(rows)));
    UniqueSorted(cities + states)
  }

  /** `getFilterOptions`: a thrown lookup gives empty options. */
  function GetFilterOptions(reply: FilterReply): FilterOptions {
    match reply
    case FilterThrew => NO_OPTIONS
    case FilterRows(industries, addresses) =>
      var uniqueIndustries := UniqueSorted(industries.GetOr([]));
      var uniqueLocations := LocationOptions(addresses.GetOr([]));
      FilterOptions(uniqueIndustries, uniqueLocations, uniqueLocations, uniqueIndustries, [])
  }

  /** A location is offered iff it is the non-empty city or state of some address. */
  lemma LocationOptionsMember(addresses: seq<AddressRow>, x: string)
    ensures x in LocationOptions(addresses) <==>
      x != "" && exists r :: r in addresses && (r.city == x || r.state == Some(x))
  {
    var cities := Tally.FirstSeen(Cities(addresses));
    var states := Tally.FirstSeen(States(addresses));
    Tally.FirstSeenProps(Cities(addresses));
    Tally.FirstSeenProps(States(addresses));
    UniqueSortedProps(NonEmpty(cities) + NonEmpty(states));
    assert x in LocationOptions(addresses) <==> x != "" && (x in Cities(addresses) || x in States(addresses));
    if x != "" && exists r :: r in addresses && (r.city == x || r.state == Some(x)) {
      var r :| r in addresses && (r.city == x || r.state == Some(x));
      var i :| 0 <= i < |addresses| && addresses[i] == r;
      if r.city == x { assert Cities(addresses)[i] == x; } else { assert States(addresses)[i] == x; }
    }
    if x != "" && x in Cities(addresses) {
      var i :| 0 <= i < |addresses| && Cities(addresses)[i] == x;
      assert addresses[i] in addresses;
    } else if x != "" && x in States(addresses) {
      var i :| 0 <= i < |addresses| && States(addresses)[i] == x;
      assert addresses[i] in addresses;
    }
  }

  /** Industries are the sorted, duplicate-free industry values; locations the sorted,
      duplicate-free union of the non-empty cities and states; the aliases repeat them. */
  lemma FilterOptionsProps(industries: seq<string>, addresses: seq<AddressRow>)
    ensures var o := GetFilterOptions(FilterRows(Some(industries), Some(addresses)));
      && Ranking.SortedBy(o.industries, Ranking.StrLe) && Tally.Distinct(o.industries)
      && (forall x :: x in o.industries <==> x in industries)
      && Ranking.SortedBy(o.locations, Ranking.StrLe) && Tally.Distinct(o.locations)
      && (forall x :: x in o.locations <==>
            x != "" && exists r :: r in addresses && (r.city == x || r.state == Some(x)))
      && o.neighborhoods == o.locations && o.businessTypes == o.industries && o.clusters == []
  {
    var o := GetFilterOptions(FilterRows(Some(industries), Some(addresses)));
    assert o.industries == UniqueSorted(industries) && o.locations == LocationOptions(addresses);
    UniqueSortedProps(industries);
    LocationOptionsProps(addresses);
  }

  lemma LocationOptionsProps(addresses: seq<AddressRow>)
    ensures Ranking.SortedBy(LocationOptions(addresses), Ranking.StrLe) && Tally.Distinct(LocationOptions(addresses))
    ensures forall x :: x in LocationOptions(addresses) <==>
      x != "" && exists r :: r in addresses && (r.city == x || r.state == Some(x))
  {
    var cities := NonEmpty(Tally.FirstSeen(Cities(addresses)));
    var states := NonEmpty(Tally.FirstSeen(States(addresses)));
    UniqueSortedProps(cities + states);
    forall x ensures x in LocationOptions(addresses) <==>
      x != "" && exists r :: r in addresses && (r.city == x || r.state == Some(x))
    {
      LocationOptionsMember(addresses, x);
    }
  }

  /** Missing lookups give empty lists rather than an error. */
  lemma FilterOptionsMissing()
    ensures GetFilterOptions(FilterRows(None, None)) == NO_OPTIONS
    ensures GetFilterOptions(FilterThrew) == NO_OPTIONS
  {
    assert Tally.FirstSeen<string>([]) == [];
    assert Tally.FirstSeen(Cities([])) == [] && Tally.FirstSeen(States([])) == [];
  }

  // ---------------------------------------------------------------- analytics

  /** A row of the analytics query: industry, revenue, employees_count, the joined city and
      the rating in ext_financials. */
  datatype AnalyticsRow = AnalyticsRow(
    industry: Option<string>, revenue: Option<int>, employees: Option<int>,
    city: Option<string>, rating: Option<int>)

  /** `x || 0` on a nullable number. */
  function Num(v: Option<int>): int { v.GetOr(0) }

  /** `x || "Unknown"` on a nullable string. */
  function OrUnknown(v: Option<string>): (r: string)
    ensures r == "Unknown" <==> v.None? || v.value == "" || v.value == "Unknown"
  {
    if v.Some? && v.value != "" then v.value else "Unknown"
  }

  function IndustryKey(row: AnalyticsRow): string { OrUnknown(row.industry) }

  /** An industry group's totals: count, revenue (a) and employees (b). */
  function IndustryVal(row: AnalyticsRow): Grouping.Sums {
    Grouping.Sums(1, Num(row.revenue), Num(row.employees), 0)
  }

  function CityKey(row: AnalyticsRow): string { OrUnknown(row.city) }

  /** A location group's totals: count, revenue (a), the sum (b) and number (c) of truthy
      ratings. */
  function LocationVal(row: AnalyticsRow): Grouping.Sums {
    var rated := row.rating.Some? && row.rating.value != 0;
    Grouping.Sums(1, Num(row.revenue), if rated then row.rating.value else 0, if rated then 1 else 0)
  }

  function RevenueTotal(data: seq<AnalyticsRow>): int
    decreases |data|
  {
    if data == [] then 0 else RevenueTotal(data[..|data| - 1]) + Num(data[|data| - 1].revenue)
  }

  function EmployeesTotal(data: seq<AnalyticsRow>): int
    decreases |data|
  {
    if data == [] then 0 else EmployeesTotal(data[..|data| - 1]) + Num(data[|data| - 1].employees)
  }

  datatype IndustryEntry = IndustryEntry(industry: string, count: nat, revenue: int, employees: int)

  datatype NeighborhoodEntry = NeighborhoodEntry(neighborhood: string, count: nat, totalRevenue: int, avgRating: real)

  function IndustryCount(e: IndustryEntry): int { e.count }

  function NeighborhoodCount(e: NeighborhoodEntry): int { e.count }

  function IndustryGroups(data: seq<AnalyticsRow>): seq<Grouping.Group<string>> {
    Grouping.GroupBy(data, IndustryKey, IndustryVal)
  }

  function LocationGroups(data: seq<AnalyticsRow>): seq<Grouping.Group<string>> {
    Grouping.GroupBy(data, CityKey, LocationVal)
  }

  function IndustryEntries(g: seq<Grouping.Group<string>>): (r: seq<IndustryEntry>)
    ensures |r| == |g|
  {
    seq(|g|, i requires 0 <= i < |g| => IndustryEntry(g[i].0, g[i].1.count, g[i].1.a, g[i].1.b))
  }

  /** `ratingCount > 0 ? totalRating / ratingCount : 0`. */
  function AvgRating(s: Grouping.Sums): real {
    if s.c > 0 then s.b as real / s.c as real else 0.0
  }

  function NeighborhoodEntries(g: seq<Grouping.Group<string>>): (r: seq<NeighborhoodEntry>)
    ensures |r| == |g|
  {
    seq(|g|, i requires 0 <= i < |g| => NeighborhoodEntry(g[i].0, g[i].1.count, g[i].1.a, AvgRating(g[i].1)))
  }

  function RevenueByIndustry(top: seq<IndustryEntry>): (r: seq<(string, int)>)
    ensures |r| == |top| && forall i :: 0 <= i < |top| ==> r[i] == (top[i].industry, top[i].revenue)
  {
    seq(|top|, i requires 0 <= i < |top| => (top[i].industry, top[i].revenue))
  }

  /** The figures of `getBusinessAnalytics`; its three distribution lists are always empty
      and are not carried. */
  datatype Analytics = Analytics(
    totalCompanies: nat, totalRevenue: int, totalEmployees: int,
    averageRevenue: real, averageEmployees: real,
    topIndustries: seq<IndustryEntry>, revenueByIndustry: seq<(string, int)>,
    topNeighborhoods: seq<NeighborhoodEntry>)

  const EMPTY_ANALYTICS := Analytics(0, 0, 0, 0.0, 0.0, [], [], [])

  /** The analytics query: active companies, narrowed by the industry filter only. */
  function AnalyticsQuery(f: Filters): seq<Clause> {
    [Eq("status", "active")]
    + (if f.industry.Some? && |f.industry.value| > 0 then [OrFilter(Conditions(f.industry.value, IndustryCondition))] else [])
  }

  /** The analytics see a superset of the listed companies: their query keeps only the
      status and industry clauses of the main query. */
  lemma AnalyticsQueryWeaker(request: Request)
    ensures forall c :: c in AnalyticsQuery(request.filters) ==> c in QueryOf(request)
    ensures forall c :: c in AnalyticsQuery(request.filters) ==> c == Eq("status", "active") || c.OrFilter?
  {
    QueryShape(request);
    QueryTextual(request);
  }

  /** `getBusinessAnalytics` over the rows it read; `None` is `null` data or a thrown query. */
  function GetBusinessAnalytics(analyticsData: Option<seq<AnalyticsRow>>): Analytics {
    if analyticsData.None? || analyticsData.value == [] then EMPTY_ANALYTICS
    else
      var data := analyticsData.value;
      var totalCompanies := |data|;
      var totalRevenue := RevenueTotal(data);
      var totalEmployees := EmployeesTotal(data);
      var topIndustries := Ranking.TopBy(IndustryEntries(IndustryGroups(data)), IndustryCount, 10);
      var topNeighborhoods := Ranking.TopBy(NeighborhoodEntries(LocationGroups(data)), NeighborhoodCount, 10);
      Analytics(totalCompanies, totalRevenue, totalEmployees,
                totalRevenue as real / totalCompanies as real, totalEmployees as real / totalCompanies as real,
                topIndustries, RevenueByIndustry(topIndustries), topNeighborhoods)
  }

  lemma {:induction false} RevenueTotalIsSum(data: seq<AnalyticsRow>)
    ensures Grouping.SumAll(data, IndustryVal).a == RevenueTotal(data)
    ensures Grouping.SumAll(data, IndustryVal).b == EmployeesTotal(data)
    decreases |data|
  {
    if data != [] {
      RevenueTotalIsSum(data[..|data| - 1]);
    }
  }

  /** Every company lands in exactly one industry group, a missing industry under
      "Unknown": the groups' counts add up to the number of companies, their revenues and
      employees to the totals, and each group counts exactly the companies with its key. */
  lemma IndustryGroupsProps(data: seq<AnalyticsRow>)
    ensures var g := IndustryGroups(data);
      && Grouping.Sum(g).count == |data|
      && Grouping.Sum(g).a == RevenueTotal(data)
      && Grouping.Sum(g).b == EmployeesTotal(data)
      && Grouping.GroupKeys(g) == Tally.FirstSeen(Grouping.MapKeys(data, IndustryKey))
      && forall k :: Grouping.At(g, k).count == Tally.Occ(Grouping.MapKeys(data, IndustryKey), k)
  {
    Grouping.GroupBySum(data, IndustryKey, IndustryVal);
    Grouping.SumAllCount(data, IndustryVal);
    RevenueTotalIsSum(data);
    Grouping.GroupByKeys(data, IndustryKey, IndustryVal);
    forall k ensures Grouping.At(IndustryGroups(data), k).count == Tally.Occ(Grouping.MapKeys(data, IndustryKey), k) {
      Grouping.GroupByAt(data, IndustryKey, IndustryVal, k);
      Grouping.SumWhereCount(data, IndustryKey, IndustryVal, k);
    }
  }

  /** topIndustries holds at most 10 industries in non-increasing count, each carrying the
      number, revenue and employees of exactly the companies in that industry, and no
      industry left out has more companies than one kept. */
  lemma TopIndustriesProps(data: seq<AnalyticsRow>)
    requires data != []
    ensures var top := GetBusinessAnalytics(Some(data)).topIndustries;
      && |top| <= 10
      && Ranking.SortedDesc(top, IndustryCount)
      && (forall e :: e in top ==>
            && e.count == Tally.Occ(Grouping.MapKeys(data, IndustryKey), e.industry)
            && e.revenue == Grouping.SumWhere(data, IndustryKey, IndustryVal, e.industry).a
            && e.employees == Grouping.SumWhere(data, IndustryKey, IndustryVal, e.industry).b)
      && (forall e :: e in IndustryEntries(IndustryGroups(data)) && e !in top ==>
            forall d :: d in top ==> d.count >= e.count)
  {
    var g := IndustryGroups(data);
    var entries := IndustryEntries(g);
    var top := Ranking.TopBy(entries, IndustryCount, 10);
    Ranking.TopByProps(entries, IndustryCount, 10);
    Grouping.GroupByDistinct(data, IndustryKey, IndustryVal);
    IndustryGroupsProps(data);
    forall e | e in top
      ensures e.count == Tally.Occ(Grouping.MapKeys(data, IndustryKey), e.industry)
      ensures e.revenue == Grouping.SumWhere(data, IndustryKey, IndustryVal, e.industry).a
      ensures e.employees == Grouping.SumWhere(data, IndustryKey, IndustryVal, e.industry).b
    {
      assert e in multiset(entries);
      var i :| 0 <= i < |entries| && entries[i] == e;
      Grouping.AtEntry(g, i);
      Grouping.GroupByAt(data, IndustryKey, IndustryVal, e.industry);
    }
  }

  /** topNeighborhoods holds at most 10 cities in non-increasing count, each with the number
      of its companies and the mean of their truthy ratings (0 when none is rated). */
  lemma TopNeighborhoodsProps(data: seq<AnalyticsRow>)
    requires data != []
    ensures var top := GetBusinessAnalytics(Some(data)).topNeighborhoods;
      && |top| <= 10
      && Ranking.SortedDesc(top, NeighborhoodCount)
      && forall e :: e in top ==>
           && e.count == Tally.Occ(Grouping.MapKeys(data, CityKey), e.neighborhood)
           && e.avgRating == AvgRating(Grouping.SumWhere(data, CityKey, LocationVal, e.neighborhood))
  {
    var entries := NeighborhoodEntries(LocationGroups(data));
    assert GetBusinessAnalytics(Some(data)).topNeighborhoods == Ranking.TopBy(entries, NeighborhoodCount, 10);
    TopOfEntries(data, entries);
  }

  /** The ten largest neighborhood entries, taken from the groups of `data`. */
  lemma TopOfEntries(data: seq<AnalyticsRow>, entries: seq<NeighborhoodEntry>)
    requires entries == NeighborhoodEntries(LocationGroups(data))
    ensures var top := Ranking.TopBy(entries, NeighborhoodCount, 10);
      && |top| <= 10
      && Ranking.SortedDesc(top, NeighborhoodCount)
      && forall e :: e in top ==>
           && e.count == Tally.Occ(Grouping.MapKeys(data, CityKey), e.neighborhood)
           && e.avgRating == AvgRating(Grouping.SumWhere(data, CityKey, LocationVal, e.neighborhood))
  {
    var top := Ranking.TopBy(entries, NeighborhoodCount, 10);
    Ranking.TopByProps(entries, NeighborhoodCount, 10);
    forall e | e in top
      ensures e.count == Tally.Occ(Grouping.MapKeys(data, CityKey), e.neighborhood)
      ensures e.avgRating == AvgRating(Grouping.SumWhere(data, CityKey, LocationVal, e.neighborhood))
    {
      assert e in multiset(entries);
      var i :| 0 <= i < |entries| && entries[i] == e;
      NeighborhoodEntryAt(data, i);
    }
  }

  /** Each neighborhood entry counts and rates exactly the companies in its city. */
  lemma NeighborhoodEntryAt(data: seq<AnalyticsRow>, i: nat)
    requires i < |LocationGroups(data)|
    ensures var e := NeighborhoodEntries(LocationGroups(data))[i];
      && e.count == Tally.Occ(Grouping.MapKeys(data, CityKey), e.neighborhood)
      && e.avgRating == AvgRating(Grouping.SumWhere(data, CityKey, LocationVal, e.neighborhood))
  {
    var g := LocationGroups(data);
    var e := NeighborhoodEntries(g)[i];
    Grouping.GroupByDistinct(data, CityKey, LocationVal);
    Grouping.AtEntry(g, i);
    Grouping.GroupByAt(data, CityKey, LocationVal, e.neighborhood);
    Grouping.SumWhereCount(data, CityKey, LocationVal, e.neighborhood);
  }

  /** No companies give all-zero analytics, and otherwise the averages are the totals over
      the number of companies. */
  lemma AnalyticsAverages(analyticsData: Option<seq<AnalyticsRow>>)
    ensures var a := GetBusinessAnalytics(analyticsData);
      && (a.totalCompanies == 0 <==> analyticsData.None? || analyticsData.value == [])
      && (a.totalCompanies == 0 ==> a == EMPTY_ANALYTICS && a.averageRevenue == 0.0 && a.averageEmployees == 0.0)
      && (a.totalCompanies > 0 ==>
            a.totalCompanies == |analyticsData.value|
            && IsMean(a.averageRevenue, a.totalRevenue, a.totalCompanies)
            && IsMean(a.averageEmployees, a.totalEmployees, a.totalCompanies))
  {
    if analyticsData.Some? && analyticsData.value != [] {
      var data := analyticsData.value;
      assert analyticsData == Some(data);
      AnalyticsMeans(data);
    } else {
      AnalyticsNone(analyticsData);
    }
  }

  lemma AnalyticsNone(analyticsData: Option<seq<AnalyticsRow>>)
    requires analyticsData.None? || analyticsData.value == []
    ensures GetBusinessAnalytics(analyticsData) == EMPTY_ANALYTICS
  {
  }

  /** The averages over a non-empty list of companies. */
  lemma AnalyticsMeans(data: seq<AnalyticsRow>)
    requires data != []
    ensures var a := GetBusinessAnalytics(Some(data));
      && a.totalCompanies == |data|
      && IsMean(a.averageRevenue, a.totalRevenue, a.totalCompanies)
      && IsMean(a.averageEmployees, a.totalEmployees, a.totalCompanies)
  {
    var a := GetBusinessAnalytics(Some(data));
    var n, rev, emp := |data|, RevenueTotal(data), EmployeesTotal(data);
    assert a.totalCompanies == n && a.totalRevenue == rev && a.totalEmployees == emp;
    assert a.averageRevenue == rev as real / n as real;
    assert a.averageEmployees == emp as real / n as real;
    MeanTimes(rev, n);
    MeanTimes(emp, n);
  }

  /** `avg` is the mean of `n` values adding up to `total`. */
  predicate IsMean(avg: real, total: int, n: nat) {
    avg * n as real == total as real
  }

  lemma MeanTimes(total: int, n: nat)
    requires n > 0
    ensures IsMean(total as real / n as real, total, n)
  {
  }

  // ---------------------------------------------------------------- getBusinesses and the handler

  /** What the main query returned: rows or `null`, and an error. The query is built
      without `{ count: "exact" }`, so the `count` it answers is always `null`. */
  datatype DbReply = DbReply(data: Option<seq<Record>>, error: Option<string>)

  datatype Page = Page(
    businesses: seq<Record>, total: nat, page: Number, limit: Number, totalPages: Option<int>,
    filters: FilterOptions, analytics: Analytics, source: string)

  function TransformAll(rows: seq<Record>): (r: seq<Record>)
    ensures |r| == |rows| && forall i :: 0 <= i < |rows| ==> r[i] == TransformBusinessData(rows[i])
  {
    seq(|rows|, i requires 0 <= i < |rows| => TransformBusinessData(rows[i]))
  }

  /** The answer of `getBusinesses` once the query has run and `total` is known. */
  function PageOf(request: Request, reply: DbReply, total: nat, options: FilterReply,
                  analyticsData: Option<seq<AnalyticsRow>>): (r: Result<Page>)
    ensures reply.error.Some? <==> r.Err?
    ensures r.Err? ==> r.msg == "Database query failed: " + reply.error.value
    ensures r.Ok? ==>
      && r.value.total == total
      && r.value.businesses == TransformAll(reply.data.GetOr([]))
      && r.value.page == request.page && r.value.limit == request.limit
      && r.value.totalPages == TotalPages(total, request.limit)
      && r.value.filters == GetFilterOptions(options)
      && r.value.analytics == GetBusinessAnalytics(analyticsData)
      && r.value.source == "database"
  {
    if reply.error.Some? then Err("Database query failed: " + reply.error.value)
    else
      Ok(Page(TransformAll(reply.data.GetOr([])), total, request.page, request.limit,
              TotalPages(total, request.limit), GetFilterOptions(options),
              GetBusinessAnalytics(analyticsData), "database"))
  }

  /** `getBusinesses` once the query (see `QueryOf`) has run, as written: `count || 0` on
      the `null` count gives a total of 0 whatever the rows. */
  function GetBusinesses(request: Request, reply: DbReply, options: FilterReply,
                         analyticsData: Option<seq<AnalyticsRow>>): (r: Result<Page>)
    ensures reply.error.Some? <==> r.Err?
    ensures r.Err? ==> r.msg == "Database query failed: " + reply.error.value
    ensures r.Ok? ==>
      && r.value.total == 0
      && r.value.businesses == TransformAll(reply.data.GetOr([]))
      && r.value.page == request.page && r.value.limit == request.limit
      && r.value.totalPages == TotalPages(0, request.limit)
      && r.value.filters == GetFilterOptions(options)
      && r.value.analytics == GetBusinessAnalytics(analyticsData)
      && r.value.source == "database"
  {
    PageOf(request, reply, 0, options, analyticsData)
  }

  /** As written, a page that holds rows reports no rows in total and no pages. */
  lemma TotalAsWritten(request: Request, rows: seq<Record>, options: FilterReply,
                       analyticsData: Option<seq<AnalyticsRow>>)
    requires rows != [] && request.limit.Int? && request.limit.i > 0
    ensures var r := GetBusinesses(request, DbReply(Some(rows), None), options, analyticsData);
      && r.Ok? && |r.value.businesses| == |rows| > 0
      && r.value.total == 0 && r.value.totalPages == Some(0)
  {
    var l := request.limit.i;
    assert (0 + l - 1) / l == 0;
  }

  /** `getBusinesses` with the query built with `{ count: "exact" }`: the total is the
      number of matching rows. */
  function GetBusinessesCounted(request: Request, reply: DbReply, count: nat, options: FilterReply,
                                analyticsData: Option<seq<AnalyticsRow>>): (r: Result<Page>)
    ensures reply.error.Some? <==> r.Err?
    ensures r.Ok? ==> r.value.total == count && r.value.totalPages == TotalPages(count, request.limit)
  {
    PageOf(request, reply, count, options, analyticsData)
  }

  /** The page, counted from 1, that holds row j (counted from 0) for pages of l rows. */
  function PageOfRow(j: nat, l: int): int
    requires l > 0
  {
    j / l + 1
  }

  /** Row j lies in the range `RangeOf` asks for on page p. */
  predicate OnPage(j: int, p: int, limit: Number) {
    limit.Int? && RangeOf(Int(p), limit).from <= j <= RangeOf(Int(p), limit).to
  }

  /** Row j lies on its page, and that page is among the first n when j < n * l. */
  lemma RowOnPage(j: nat, l: int, n: int)
    requires l > 0 && j < n * l
    ensures OnPage(j, PageOfRow(j, l), Int(l)) && 1 <= PageOfRow(j, l) <= n
  {
    var q := j / l;
    assert q * l <= j < q * l + l by { DivBounds(j, l); }
    assert (q + 1 - 1) * l == q * l;
    assert (n - q) * l == n * l - q * l;
    PositiveFactor(n - q, l);
    PositiveFactor(q + 1, l);
  }

  lemma DivBounds(j: nat, l: int)
    requires l > 0
    ensures (j / l) * l <= j < (j / l) * l + l
  {
  }

  /** A product with a positive factor is positive only when the other factor is. */
  lemma PositiveFactor(x: int, l: int)
    requires l > 0 && x * l > 0
    ensures x > 0
  {
  }

  /** With the exact count, every matching row lies on one of the pages 1..totalPages. */
  lemma CountedPagesCover(request: Request, reply: DbReply, count: nat, options: FilterReply,
                          analyticsData: Option<seq<AnalyticsRow>>)
    requires reply.error.None? && request.limit.Int? && request.limit.i > 0
    ensures var r := GetBusinessesCounted(request, reply, count, options, analyticsData);
      && r.Ok? && r.value.total == count && r.value.totalPages.Some?
      && forall j: nat :: j < count ==>
           1 <= PageOfRow(j, request.limit.i) <= r.value.totalPages.value
           && OnPage(j, PageOfRow(j, request.limit.i), request.limit)
  {
    var l := request.limit.i;
    var r := GetBusinessesCounted(request, reply, count, options, analyticsData);
    var n := r.value.totalPages.value;
    assert n * l >= count;
    forall j: nat | j < count
      ensures 1 <= PageOfRow(j, l) <= n && OnPage(j, PageOfRow(j, l), Int(l))
    {
      RowOnPage(j, l, n);
    }
  }

  datatype Reply =
    | NoContent
    | Businesses(page: Page)
    | Failure(error: string, details: Option<string>)

  datatype Response = Response(status: int, reply: Reply)

  /** `!value` on an environment variable. */
  predicate Missing(v: Option<string>) { v.None? || v.value == "" }

  /** `handler`: OPTIONS is answered first, then the two environment variables are required,
      then GET and POST are served and anything else refused. */
  function Handler(requestMethod: string, query: GetQuery, body: PostBody,
                   supabaseUrl: Option<string>, serviceKey: Option<string>,
                   reply: DbReply, options: FilterReply, analyticsData: Option<seq<AnalyticsRow>>): (r: Response)
    ensures r.status in {200, 405, 500}
    ensures requestMethod == "OPTIONS" <==> r == Response(200, NoContent)
    ensures requestMethod != "OPTIONS" && Missing(supabaseUrl) ==>
      r == Response(500, Failure("Database configuration error", Some("SUPABASE_URL environment variable is required")))
    ensures requestMethod != "OPTIONS" && !Missing(supabaseUrl) && Missing(serviceKey) ==>
      r == Response(500, Failure("Database configuration error", Some("SUPABASE_SERVICE_ROLE_KEY environment variable is required")))
    ensures r.status == 405 <==>
      requestMethod !in {"OPTIONS", "GET", "POST"} && !Missing(supabaseUrl) && !Missing(serviceKey)
    ensures r.status == 405 ==> r.reply == Failure("Method not allowed", None)
    ensures r.reply.Businesses? <==>
      requestMethod in {"GET", "POST"} && !Missing(supabaseUrl) && !Missing(serviceKey) && reply.error.None?
    ensures requestMethod in {"GET", "POST"} && !Missing(supabaseUrl) && !Missing(serviceKey) && reply.error.Some? ==>
      r == Response(500, Failure("Failed to fetch businesses", Some("Database query failed: " + reply.error.value)))
  {
    if requestMethod == "OPTIONS" then Response(200, NoContent)
    else if Missing(supabaseUrl) then
      Response(500, Failure("Database configuration error", Some("SUPABASE_URL environment variable is required")))
    else if Missing(serviceKey) then
      Response(500, Failure("Database configuration error", Some("SUPABASE_SERVICE_ROLE_KEY environment variable is required")))
    else if requestMethod == "GET" || requestMethod == "POST" then
      var request := if requestMethod == "GET" then NormalizeGet(query) else FromBody(body);
      match GetBusinesses(request, reply, options, analyticsData)
      case Ok(page) => Response(200, Businesses(page))
      case Err(msg) => Response(500, Failure("Failed to fetch businesses", Some(msg)))
    else Response(405, Failure("Method not allowed", None))
  }

  /** A served page is the one `getBusinesses` computes for the normalised query string of a
      GET or the body of a POST. */
  lemma HandlerServes(requestMethod: string, query: GetQuery, body: PostBody,
                      supabaseUrl: Option<string>, serviceKey: Option<string>,
                      reply: DbReply, options: FilterReply, analyticsData: Option<seq<AnalyticsRow>>)
    ensures var r := Handler(requestMethod, query, body, supabaseUrl, serviceKey, reply, options, analyticsData);
      r.reply.Businesses? ==>
        && r.status == 200
        && GetBusinesses(if requestMethod == "GET" then NormalizeGet(query) else FromBody(body), reply, options,
             analyticsData) == Ok(r.reply.page)
  {
  }
}
