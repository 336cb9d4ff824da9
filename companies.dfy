/** Rows of the `companies` table as the search endpoints read them, and the PostgREST
    filters and ordering those endpoints put on them. */
module Companies {
  import opened Wrappers
  import Str
  import Ranking

  /** A `companies` row; `similarity` is only present on rows returned by the
      `semantic_business_search` database function. */
  datatype Company = Company(
    id: string, name: string, description: Option<string>, industry: Option<string>, sector: Option<string>,
    headquarters: Option<string>, revenue: Option<int>, employees: Option<int>, status: string,
    similarity: Option<real>)

  /** `x || 0` on a nullable number. */
  function OrZero(v: Option<int>): int { if v.Some? then v.value else 0 }

  /** `x || ""` on a nullable string. */
  function OrEmpty(v: Option<string>): string { if v.Some? then v.value else "" }

  /** A similarity JavaScript treats as true: present and not 0. */
  predicate HasSimilarity(c: Company) { c.similarity.Some? && c.similarity.value != 0.0 }

  /** A filter list given and non-empty (`list?.length` is truthy). */
  predicate Given(list: Option<seq<string>>) { list.Some? && list.value != [] }

  /** `column.ilike.%needle%`, and `field?.toLowerCase().includes(needle.toLowerCase())`:
      the field is present and holds the needle, ignoring ASCII case. */
  predicate Mentions(field: Option<string>, needle: string) {
    field.Some? && Str.Contains(Str.Lower(field.value), Str.Lower(needle))
  }

  /** One `.or(...)` group: some needle is mentioned by some of the fields. */
  predicate AnyMentions(fields: seq<Option<string>>, needles: seq<string>) {
    exists i, j :: 0 <= i < |needles| && 0 <= j < |fields| && Mentions(fields[j], needles[i])
  }

  /** `.gte(column, bound)` / `.lte(column, bound)`: SQL comparisons, false on NULL. */
  predicate AtLeast(v: Option<int>, bound: int) { v.Some? && v.value >= bound }
  predicate AtMost(v: Option<int>, bound: int) { v.Some? && v.value <= bound }

  /** `.order("revenue", { ascending: false, nullsFirst: false })`. */
  predicate RevenueFirst(a: Company, b: Company) {
    b.revenue.None? || (a.revenue.Some? && a.revenue.value >= b.revenue.value)
  }

  lemma RevenueFirstTotal()
    ensures Ranking.TotalPreorder(RevenueFirst)
  {
  }

  function ByRevenue(rows: seq<Company>): seq<Company> {
    Ranking.SortBy(rows, RevenueFirst)
  }

  /** The ordered rows are the same rows, highest revenue first and rows without a revenue
      last. */
  lemma ByRevenueProps(rows: seq<Company>)
    ensures multiset(ByRevenue(rows)) == multiset(rows)
    ensures forall i, j :: 0 <= i < j < |ByRevenue(rows)| ==> RevenueFirst(ByRevenue(rows)[i], ByRevenue(rows)[j])
    ensures forall i, j :: 0 <= i < j < |ByRevenue(rows)| && ByRevenue(rows)[i].revenue.None? ==>
      ByRevenue(rows)[j].revenue.None?
  {
    RevenueFirstTotal();
    Ranking.SortBySorted(rows, RevenueFirst);
  }
}
