/** The business-relationship analysis endpoint: the `businesses` table is grouped by
    industry, neighbourhood and cluster in one pass, and from those groups come expansion
    and collaboration relationships, market gaps, a summary and three insights. A JavaScript
    `Map` is an insertion-ordered map here: the keys in the order they were first set and
    a Dafny `map` from key to entry; a `Set` is a sequence without repetitions. */
module BusinessAnalytics {
  import opened Wrappers
  import Str
  import Js
  import Ranking
  import Tally
  import Seqs

  /** A `businesses` row, reduced to the columns the analysis reads. */
  datatype Business = Business(
    industry: Option<string>, neighborhood: Option<string>, cluster: Option<string>,
    revenue: Option<int>, employees: Option<int>)

  /** `business.industry || 'Other'`. */
  function IndustryOf(b: Business): string { if Js.Filled(b.industry) then b.industry.value else "Other" }

  /** `business.neighborhood || 'Unknown'`. */
  function NeighborhoodOf(b: Business): string {
    if Js.Filled(b.neighborhood) then b.neighborhood.value else "Unknown"
  }

  /** `business.cluster || 'General'`. */
  function ClusterOf(b: Business): string { if Js.Filled(b.cluster) then b.cluster.value else "General" }

  /** `business.revenue || 0` and `business.employees || 0`. */
  function Revenue(b: Business): int { if b.revenue.Some? then b.revenue.value else 0 }
  function Employees(b: Business): int { if b.employees.Some? then b.employees.value else 0 }

  /** One entry of a grouping: the counters every map keeps, the businesses pushed, the
      `Set` the neighbourhood map (industries) and the cluster map (neighbourhoods) add to,
      and the averages the industry map fills in afterwards. An entry of a map that keeps
      no set holds an empty one; one that keeps no employee total or averages holds
      values nobody reads. */
  datatype Group = Group(
    count: nat, totalRevenue: int, totalEmployees: int, members: seq<string>,
    businesses: seq<Business>, avgRevenue: real, avgEmployees: real)

  const EMPTY_GROUP := Group(0, 0, 0, [], [], 0.0, 0.0)

  /** A `Map` from a key to its entry, keys in insertion order. */
  datatype Grouping = Grouping(order: seq<string>, groups: map<string, Group>)

  const NO_GROUPS := Grouping([], map[])

  /** Keys and entries agree and no key was inserted twice. */
  ghost predicate WellFormed(g: Grouping) {
    (forall k :: k in g.groups <==> k in g.order) && Tally.Distinct(g.order)
  }

  /** `if (!map.has(key)) map.set(key, { ...zero counters })`. */
  function Ensure(g: Grouping, key: string): (r: Grouping)
    ensures key in r.groups
  {
    if key in g.groups then g else Grouping(g.order + [key], g.groups[key := EMPTY_GROUP])
  }

  /** The updates of one entry: bump its count, add to its totals, add `member` to its set
      and push the business. */
  function Bump(d: Group, member: Option<string>, b: Business): Group {
    d.(count := d.count + 1, totalRevenue := d.totalRevenue + Revenue(b),
       totalEmployees := d.totalEmployees + Employees(b),
       members := if member.Some? && member.value !in d.members then d.members + [member.value] else d.members,
       businesses := d.businesses + [b])
  }

  /** What one visit of the `forEach` does to one map. */
  function Add(g: Grouping, key: string, member: Option<string>, b: Business): Grouping {
    var base := Ensure(g, key);
    Grouping(base.order, base.groups[key := Bump(base.groups[key], member, b)])
  }

  /** The map after the `forEach` has visited `bs`. */
  function GroupBy(bs: seq<Business>, keyOf: Business -> string, memberOf: Business -> Option<string>): Grouping
    decreases |bs|
  {
    if bs == [] then NO_GROUPS
    else
      var b := bs[|bs| - 1];
      Add(GroupBy(bs[..|bs| - 1], keyOf, memberOf), keyOf(b), memberOf(b), b)
  }

  /** The industry map keeps no set, the neighbourhood map the industries, the cluster map
      the neighbourhoods. */
  function NoMember(b: Business): Option<string> { None }
  function IndustryMember(b: Business): Option<string> { Some(IndustryOf(b)) }
  function NeighborhoodMember(b: Business): Option<string> { Some(NeighborhoodOf(b)) }

  function IndustryGroups(bs: seq<Business>): Grouping { GroupBy(bs, IndustryOf, NoMember) }
  function NeighborhoodGroups(bs: seq<Business>): Grouping { GroupBy(bs, NeighborhoodOf, IndustryMember) }
  function ClusterGroups(bs: seq<Business>): Grouping { GroupBy(bs, ClusterOf, NeighborhoodMember) }

  /** The businesses of `bs` under key `k`, in order. */
  function InGroup(bs: seq<Business>, keyOf: Business -> string, k: string): seq<Business>
    decreases |bs|
  {
    if bs == [] then []
    else InGroup(bs[..|bs| - 1], keyOf, k) + (if keyOf(bs[|bs| - 1]) == k then [bs[|bs| - 1]] else [])
  }

  function RevenueSum(bs: seq<Business>): int
    decreases |bs|
  {
    if bs == [] then 0 else RevenueSum(bs[..|bs| - 1]) + Revenue(bs[|bs| - 1])
  }

  function EmployeeSum(bs: seq<Business>): int
    decreases |bs|
  {
    if bs == [] then 0 else EmployeeSum(bs[..|bs| - 1]) + Employees(bs[|bs| - 1])
  }

  /** The sum of the counts of the entries, in key order. */
  function CountSum(order: seq<string>, groups: map<string, Group>): nat
    decreases |order|
  {
    if order == [] then 0
    else
      var k := order[|order| - 1];
      CountSum(order[..|order| - 1], groups) + (if k in groups then groups[k].count else 0)
  }

  /** What an entry holds once every business of its key has been visited. */
  ghost predicate GroupFacts(d: Group, members: seq<Business>, memberOf: Business -> Option<string>) {
    && d.businesses == members
    && d.count == |members| > 0
    && d.totalRevenue == RevenueSum(members)
    && d.totalEmployees == EmployeeSum(members)
    && Tally.Distinct(d.members)
    && (forall m :: m in d.members <==> exists b :: b in members && memberOf(b) == Some(m))
    && d.avgRevenue == 0.0 && d.avgEmployees == 0.0
  }

  lemma CountSumFrame(order: seq<string>, groups: map<string, Group>, k: string, d: Group)
    requires k !in order
    ensures CountSum(order, groups[k := d]) == CountSum(order, groups)
    decreases |order|
  {
    if order != [] {
      CountSumFrame(order[..|order| - 1], groups, k, d);
    }
  }

  lemma {:induction false} CountSumBump(order: seq<string>, groups: map<string, Group>, k: string, d: Group)
    requires Tally.Distinct(order) && k in order && k in groups && d.count == groups[k].count + 1
    ensures CountSum(order, groups[k := d]) == CountSum(order, groups) + 1
    decreases |order|
  {
    var init := order[..|order| - 1];
    var last := order[|order| - 1];
    if last == k {
      assert k !in init by {
        forall i | 0 <= i < |init| ensures init[i] != k { assert order[i] != order[|order| - 1]; }
      }
      CountSumFrame(init, groups, k, d);
    } else {
      assert k in init by {
        var j :| 0 <= j < |order| && order[j] == k;
        assert j < |order| - 1 && init[j] == k;
      }
      assert Tally.Distinct(init) by {
        forall i, j | 0 <= i < j < |init| ensures init[i] != init[j] { assert order[i] != order[j]; }
      }
      CountSumBump(init, groups, k, d);
    }
  }

  lemma InGroupOther(bs: seq<Business>, keyOf: Business -> string, b: Business, k: string)
    requires keyOf(b) != k
    ensures InGroup(bs + [b], keyOf, k) == InGroup(bs, keyOf, k)
  {
    assert (bs + [b])[..|bs|] == bs;
  }

  lemma InGroupSame(bs: seq<Business>, keyOf: Business -> string, b: Business)
    ensures InGroup(bs + [b], keyOf, keyOf(b)) == InGroup(bs, keyOf, keyOf(b)) + [b]
  {
    assert (bs + [b])[..|bs|] == bs;
  }

  lemma {:induction false} InGroupEmpty(bs: seq<Business>, keyOf: Business -> string, k: string)
    requires forall i :: 0 <= i < |bs| ==> keyOf(bs[i]) != k
    ensures InGroup(bs, keyOf, k) == []
    decreases |bs|
  {
    if bs != [] {
      InGroupEmpty(bs[..|bs| - 1], keyOf, k);
    }
  }

  lemma RevenueSumSnoc(bs: seq<Business>, b: Business)
    ensures RevenueSum(bs + [b]) == RevenueSum(bs) + Revenue(b)
    ensures EmployeeSum(bs + [b]) == EmployeeSum(bs) + Employees(b)
  {
    assert (bs + [b])[..|bs|] == bs;
  }

  /** Keys of a grouping of `bs`: exactly the values `keyOf` takes on `bs`. */
  ghost predicate KeysOf(g: Grouping, bs: seq<Business>, keyOf: Business -> string) {
    forall k :: k in g.groups <==> exists i :: 0 <= i < |bs| && keyOf(bs[i]) == k
  }

  /** Every entry of a grouping of `bs` holds what its key's businesses give. */
  ghost predicate EntriesOf(g: Grouping, bs: seq<Business>, keyOf: Business -> string, memberOf: Business -> Option<string>) {
    forall k :: k in g.groups ==> GroupFacts(g.groups[k], InGroup(bs, keyOf, k), memberOf)
  }

  lemma EnsureWellFormed(g: Grouping, key: string)
    requires WellFormed(g)
    ensures WellFormed(Ensure(g, key))
    ensures CountSum(Ensure(g, key).order, Ensure(g, key).groups) == CountSum(g.order, g.groups)
    ensures Ensure(g, key).groups[key] == if key in g.groups then g.groups[key] else EMPTY_GROUP
  {
    if key !in g.groups {
      var base := Ensure(g, key);
      CountSumFrame(g.order, g.groups, key, EMPTY_GROUP);
      assert base.order[..|g.order|] == g.order;
      assert Tally.Distinct(base.order) by {
        forall i, j | 0 <= i < j < |base.order| ensures base.order[i] != base.order[j] {
          if j == |g.order| { assert base.order[i] == g.order[i] && g.order[i] in g.groups; }
          else { assert base.order[i] == g.order[i] && base.order[j] == g.order[j]; }
        }
      }
    }
  }

  lemma AddWellFormed(g: Grouping, key: string, member: Option<string>, b: Business)
    requires WellFormed(g)
    ensures WellFormed(Add(g, key, member, b))
    ensures CountSum(Add(g, key, member, b).order, Add(g, key, member, b).groups) == CountSum(g.order, g.groups) + 1
  {
    var base := Ensure(g, key);
    EnsureWellFormed(g, key);
    CountSumBump(base.order, base.groups, key, Bump(base.groups[key], member, b));
  }

  lemma AddKeys(g: Grouping, bs: seq<Business>, keyOf: Business -> string, memberOf: Business -> Option<string>, b: Business)
    requires KeysOf(g, bs, keyOf)
    ensures KeysOf(Add(g, keyOf(b), memberOf(b), b), bs + [b], keyOf)
  {
    var r := Add(g, keyOf(b), memberOf(b), b);
    var s := bs + [b];
    forall k ensures k in r.groups <==> exists i :: 0 <= i < |s| && keyOf(s[i]) == k {
      if k in g.groups && k != keyOf(b) {
        var i :| 0 <= i < |bs| && keyOf(bs[i]) == k;
        assert keyOf(s[i]) == k;
      }
      if k == keyOf(b) { assert keyOf(s[|bs|]) == k; }
      if exists i :: 0 <= i < |s| && keyOf(s[i]) == k {
        var i :| 0 <= i < |s| && keyOf(s[i]) == k;
        if i < |bs| { assert keyOf(bs[i]) == k; }
      }
    }
  }

  /** The member list after a visit names exactly the members of the businesses seen. */
  lemma BumpMembers(members: seq<string>, prior: seq<Business>, memberOf: Business -> Option<string>, b: Business)
    requires forall m :: m in members <==> exists c :: c in prior && memberOf(c) == Some(m)
    ensures var r := if memberOf(b).Some? && memberOf(b).value !in members then members + [memberOf(b).value] else members;
      forall m :: m in r <==> exists c :: c in prior + [b] && memberOf(c) == Some(m)
  {
    var r := if memberOf(b).Some? && memberOf(b).value !in members then members + [memberOf(b).value] else members;
    var all := prior + [b];
    forall m ensures m in r <==> exists c :: c in all && memberOf(c) == Some(m) {
      if m in r && m !in members {
        assert memberOf(b) == Some(m) && b in all;
      }
      if m in members {
        var c :| c in prior && memberOf(c) == Some(m);
        assert c in all;
      }
      if exists c :: c in all && memberOf(c) == Some(m) {
        var c :| c in all && memberOf(c) == Some(m);
        if c != b { assert c in prior; }
      }
    }
  }

  /** A member is appended only when it is new, so the list stays free of repeats. */
  lemma BumpDistinct(members: seq<string>, member: Option<string>)
    requires Tally.Distinct(members)
    ensures Tally.Distinct(if member.Some? && member.value !in members then members + [member.value] else members)
  {
    if member.Some? && member.value !in members {
      var r := members + [member.value];
      forall i, j | 0 <= i < j < |r| ensures r[i] != r[j] {
        if j == |members| { assert r[i] == members[i]; }
        else { assert r[i] == members[i] && r[j] == members[j]; }
      }
    }
  }

  lemma AddEntry(d: Group, prior: seq<Business>, memberOf: Business -> Option<string>, b: Business, r: Group)
    requires d.businesses == prior && d.count == |prior|
    requires d.totalRevenue == RevenueSum(prior) && d.totalEmployees == EmployeeSum(prior)
    requires Tally.Distinct(d.members)
    requires forall m :: m in d.members <==> exists c :: c in prior && memberOf(c) == Some(m)
    requires d.avgRevenue == 0.0 && d.avgEmployees == 0.0
    requires r == Bump(d, memberOf(b), b)
    ensures GroupFacts(r, prior + [b], memberOf)
  {
    var all := prior + [b];
    RevenueSumSnoc(prior, b);
    assert r.businesses == all && r.count == |all| > 0;
    assert r.totalRevenue == RevenueSum(all) && r.totalEmployees == EmployeeSum(all);
    BumpMembers(d.members, prior, memberOf, b);
    BumpDistinct(d.members, memberOf(b));
  }

  lemma AddEntries(g: Grouping, bs: seq<Business>, keyOf: Business -> string, memberOf: Business -> Option<string>, b: Business)
    requires KeysOf(g, bs, keyOf) && EntriesOf(g, bs, keyOf, memberOf)
    ensures EntriesOf(Add(g, keyOf(b), memberOf(b), b), bs + [b], keyOf, memberOf)
  {
    var key := keyOf(b);
    var base := Ensure(g, key);
    var r := Add(g, key, memberOf(b), b);
    if key !in g.groups {
      InGroupEmpty(bs, keyOf, key);
    }
    InGroupSame(bs, keyOf, b);
    AddEntry(base.groups[key], InGroup(bs, keyOf, key), memberOf, b, r.groups[key]);
    AddOthers(g, bs, keyOf, memberOf, b);
  }

  /** The entries of the other keys are those of `g`, and their businesses did not change. */
  lemma AddOthers(g: Grouping, bs: seq<Business>, keyOf: Business -> string, memberOf: Business -> Option<string>, b: Business)
    requires EntriesOf(g, bs, keyOf, memberOf)
    ensures var r := Add(g, keyOf(b), memberOf(b), b);
      forall k :: k in r.groups && k != keyOf(b) ==> GroupFacts(r.groups[k], InGroup(bs + [b], keyOf, k), memberOf)
  {
    var r := Add(g, keyOf(b), memberOf(b), b);
    forall k | k in r.groups && k != keyOf(b) ensures GroupFacts(r.groups[k], InGroup(bs + [b], keyOf, k), memberOf) {
      InGroupOther(bs, keyOf, b, k);
      assert r.groups[k] == g.groups[k];
    }
  }

  /** The grouping the `forEach` builds: one key per value `keyOf` takes on `bs`, each
      inserted once, each entry holding exactly the businesses of its key with their count,
      totals and set, and the counts adding up to the number of businesses. */
  lemma {:induction false} GroupByProps(bs: seq<Business>, keyOf: Business -> string, memberOf: Business -> Option<string>)
    ensures var g := GroupBy(bs, keyOf, memberOf);
      && WellFormed(g) && KeysOf(g, bs, keyOf) && EntriesOf(g, bs, keyOf, memberOf)
      && CountSum(g.order, g.groups) == |bs|
    decreases |bs|
  {
    if bs != [] {
      var init := bs[..|bs| - 1];
      var b := bs[|bs| - 1];
      assert bs == init + [b];
      GroupByProps(init, keyOf, memberOf);
      var g0 := GroupBy(init, keyOf, memberOf);
      AddWellFormed(g0, keyOf(b), memberOf(b), b);
      AddKeys(g0, init, keyOf, memberOf, b);
      AddEntries(g0, init, keyOf, memberOf, b);
    }
  }

  lemma InGroupMembers(bs: seq<Business>, keyOf: Business -> string, k: string)
    ensures forall b :: b in InGroup(bs, keyOf, k) <==> b in bs && keyOf(b) == k
    decreases |bs|
  {
    if bs != [] {
      var init := bs[..|bs| - 1];
      InGroupMembers(init, keyOf, k);
      assert bs == init + [bs[|bs| - 1]];
    }
  }

  lemma GroupBySnoc(bs: seq<Business>, b: Business, keyOf: Business -> string, memberOf: Business -> Option<string>)
    ensures GroupBy(bs + [b], keyOf, memberOf) == Add(GroupBy(bs, keyOf, memberOf), keyOf(b), memberOf(b), b)
  {
    assert (bs + [b])[..|bs|] == bs;
  }

  /** The three maps the `forEach` fills. */
  datatype Maps = Maps(industries: Grouping, neighborhoods: Grouping, clusters: Grouping)

  /** The body of the `forEach` of lines 23-73, for one business. */
  function Visit(m: Maps, b: Business): Maps {
    var industry := IndustryOf(b);
    var neighborhood := NeighborhoodOf(b);
    Maps(Add(m.industries, industry, None, b),
         Add(m.neighborhoods, neighborhood, Some(industry), b),
         Add(m.clusters, ClusterOf(b), Some(neighborhood), b))
  }

  /** The maps after the `forEach` has visited the first `n` rows. */
  function Scan(bs: seq<Business>, n: nat): Maps
    requires n <= |bs|
  {
    if n == 0 then Maps(NO_GROUPS, NO_GROUPS, NO_GROUPS) else Visit(Scan(bs, n - 1), bs[n - 1])
  }

  lemma {:induction false} ScanIndustries(bs: seq<Business>, n: nat)
    requires n <= |bs|
    ensures Scan(bs, n).industries == IndustryGroups(bs[..n])
  {
    if n > 0 {
      assert bs[..n] == bs[..n - 1] + [bs[n - 1]];
      ScanIndustries(bs, n - 1);
      GroupBySnoc(bs[..n - 1], bs[n - 1], IndustryOf, NoMember);
    }
  }

  lemma {:induction false} ScanNeighborhoods(bs: seq<Business>, n: nat)
    requires n <= |bs|
    ensures Scan(bs, n).neighborhoods == NeighborhoodGroups(bs[..n])
  {
    if n > 0 {
      assert bs[..n] == bs[..n - 1] + [bs[n - 1]];
      ScanNeighborhoods(bs, n - 1);
      GroupBySnoc(bs[..n - 1], bs[n - 1], NeighborhoodOf, IndustryMember);
    }
  }

  lemma {:induction false} ScanClusters(bs: seq<Business>, n: nat)
    requires n <= |bs|
    ensures Scan(bs, n).clusters == ClusterGroups(bs[..n])
  {
    if n > 0 {
      assert bs[..n] == bs[..n - 1] + [bs[n - 1]];
      ScanClusters(bs, n - 1);
      GroupBySnoc(bs[..n - 1], bs[n - 1], ClusterOf, NeighborhoodMember);
    }
  }

  /** One pass fills each map as grouping the rows by that map's key alone would. */
  lemma ScanGroups(bs: seq<Business>)
    ensures Scan(bs, |bs|) == Maps(IndustryGroups(bs), NeighborhoodGroups(bs), ClusterGroups(bs))
  {
    assert bs[..|bs|] == bs;
    ScanIndustries(bs, |bs|);
    ScanNeighborhoods(bs, |bs|);
    ScanClusters(bs, |bs|);
  }

  /** The `forEach` of lines 23-73: one pass over the rows filling the three maps. */
  method GroupBusinesses(bs: seq<Business>) returns (m: Maps)
    ensures m == Scan(bs, |bs|)
  {
    m := Maps(NO_GROUPS, NO_GROUPS, NO_GROUPS);
    for i := 0 to |bs|
      invariant m == Scan(bs, i)
    {
      m := Visit(m, bs[i]);
    }
  }

  /** Every entry was created by a visit, so no count is 0. */
  ghost predicate Counted(g: Grouping) {
    forall k :: k in g.groups ==> g.groups[k].count > 0
  }

  /** `data.avgRevenue = data.totalRevenue / data.count` and the same for employees. */
  /** The averages of line 77-78: times the count they give the totals. */
  predicate AveragesKept(d: Group) {
    && d.avgRevenue * (d.count as real) == d.totalRevenue as real
    && d.avgEmployees * (d.count as real) == d.totalEmployees as real
  }

  lemma AveragedKept(d: Group)
    requires d.count > 0
    ensures AveragesKept(Averaged(d))
  {
  }

  function Averaged(d: Group): (r: Group)
    requires d.count > 0
    ensures r.count == d.count && r.totalRevenue == d.totalRevenue && r.totalEmployees == d.totalEmployees
    ensures r.members == d.members && r.businesses == d.businesses
    ensures r.avgRevenue * (d.count as real) == d.totalRevenue as real
    ensures r.avgEmployees * (d.count as real) == d.totalEmployees as real
  {
    d.(avgRevenue := d.totalRevenue as real / d.count as real,
       avgEmployees := d.totalEmployees as real / d.count as real)
  }

  /** The industry map once the averages loop has run. */
  function WithAverages(g: Grouping): (r: Grouping)
    requires Counted(g)
    ensures r.order == g.order && r.groups.Keys == g.groups.Keys && Counted(r)
  {
    Grouping(g.order, map k | k in g.groups :: Averaged(g.groups[k]))
  }

  /** The loop of lines 76-79, writing the averages into each entry in key order. */
  method FillAverages(g: Grouping) returns (r: Grouping)
    requires WellFormed(g) && Counted(g)
    ensures r == WithAverages(g)
  {
    r := g;
    for i := 0 to |g.order|
      invariant r.order == g.order && r.groups.Keys == g.groups.Keys
      invariant forall k :: k in g.groups ==> r.groups[k] == if k in g.order[..i] then Averaged(g.groups[k]) else g.groups[k]
    {
      var k := g.order[i];
      r := r.(groups := r.groups[k := Averaged(r.groups[k])]);
      assert g.order[..i + 1] == g.order[..i] + [k];
    }
    assert g.order[..|g.order|] == g.order;
    assert r.groups == WithAverages(g).groups;
  }

  /** The values `f` gives on `keys`, in key order, skipping None: a loop over a map that
      pushes one record for some entries. */
  function Collect<T>(keys: seq<string>, f: string -> Option<T>): seq<T>
    decreases |keys|
  {
    if keys == [] then []
    else
      var k := keys[|keys| - 1];
      Collect(keys[..|keys| - 1], f) + (if f(k).Some? then [f(k).value] else [])
  }

  lemma {:induction false} CollectProps<T>(keys: seq<string>, f: string -> Option<T>)
    ensures |Collect(keys, f)| <= |keys|
    ensures forall x :: x in Collect(keys, f) <==> exists k :: k in keys && f(k) == Some(x)
    decreases |keys|
  {
    if keys != [] {
      var init := keys[..|keys| - 1];
      CollectProps(init, f);
      assert keys == init + [keys[|keys| - 1]];
    }
  }

  /** One more key collected. */
  lemma CollectStep<T>(keys: seq<string>, i: nat, f: string -> Option<T>)
    requires i < |keys|
    ensures Collect(keys[..i + 1], f) == Collect(keys[..i], f) + (if f(keys[i]).Some? then [f(keys[i]).value] else [])
  {
    assert keys[..i + 1][..i] == keys[..i];
  }

  /** A relationship the analysis reports; the `type` and `potential` fields are fixed per
      kind. */
  datatype Relationship =
    | Expansion(industry: string, description: string, neighborhoods: seq<Option<string>>)
    | Collaboration(neighborhood: string, description: string, industries: seq<string>)

  function Potential(r: Relationship): string {
    if r.Expansion? then "Geographic expansion within industry" else "Cross-industry collaboration and networking"
  }

  /** `data.businesses.map(b => b.neighborhood)`: the raw column, null kept. */
  function RawNeighborhoods(bs: seq<Business>): (r: seq<Option<string>>)
    ensures |r| == |bs| && forall i :: 0 <= i < |bs| ==> r[i] == bs[i].neighborhood
  {
    seq(|bs|, i requires 0 <= i < |bs| => bs[i].neighborhood)
  }

  /** `[...new Set(...)]` of the raw neighbourhoods of an industry's businesses. */
  function Spread(d: Group): seq<Option<string>> { Tally.FirstSeen(RawNeighborhoods(d.businesses)) }

  /** An industry with more than one business whose businesses sit in more than one
      neighbourhood value. */
  function ExpansionOf(g: Grouping): string -> Option<Relationship> {
    k =>
      if k in g.groups && g.groups[k].count > 1 && |Spread(g.groups[k])| > 1 then
        Some(Expansion(k, k + " businesses span " + Str.NatToString(|Spread(g.groups[k])|) + " neighborhoods",
                       Spread(g.groups[k])))
      else None
  }

  /** A neighbourhood with more than three industries. */
  function HubOf(g: Grouping): string -> Option<Relationship> {
    k =>
      if k in g.groups && |g.groups[k].members| > 3 then
        Some(Collaboration(k, k + " has " + Str.NatToString(|g.groups[k].members|) + " different industries",
                           g.groups[k].members))
      else None
  }

  function Expansions(industries: Grouping): seq<Relationship> { Collect(industries.order, ExpansionOf(industries)) }
  function Hubs(neighborhoods: Grouping): seq<Relationship> { Collect(neighborhoods.order, HubOf(neighborhoods)) }

  /** The two loops of lines 85-111, pushing onto one list. */
  method FindRelationships(industries: Grouping, neighborhoods: Grouping) returns (rels: seq<Relationship>)
    ensures rels == Expansions(industries) + Hubs(neighborhoods)
  {
    rels := PushExpansions(industries, []);
    rels := PushHubs(neighborhoods, rels);
  }

  /** The loop of lines 85-98: an expansion opportunity per industry spread over several
      neighbourhoods, pushed in map order. */
  method PushExpansions(industries: Grouping, start: seq<Relationship>) returns (rels: seq<Relationship>)
    ensures rels == start + Expansions(industries)
  {
    rels := start;
    for i := 0 to |industries.order|
      invariant rels == start + Collect(industries.order[..i], ExpansionOf(industries))
    {
      var industry := industries.order[i];
      CollectStep(industries.order, i, ExpansionOf(industries));
      if industry in industries.groups {
        var data := industries.groups[industry];
        if data.count > 1 {
          var spread := Tally.FirstSeen(RawNeighborhoods(data.businesses));
          if |spread| > 1 {
            rels := rels + [Expansion(industry, industry + " businesses span " + Str.NatToString(|spread|) + " neighborhoods", spread)];
          }
        }
      }
    }
    assert industries.order[..|industries.order|] == industries.order;
  }

  /** The loop of lines 101-111: a collaboration hub per neighbourhood with more than
      three industries, pushed in map order. */
  method PushHubs(neighborhoods: Grouping, start: seq<Relationship>) returns (rels: seq<Relationship>)
    ensures rels == start + Hubs(neighborhoods)
  {
    rels := start;
    for i := 0 to |neighborhoods.order|
      invariant rels == start + Collect(neighborhoods.order[..i], HubOf(neighborhoods))
    {
      var neighborhood := neighborhoods.order[i];
      CollectStep(neighborhoods.order, i, HubOf(neighborhoods));
      if neighborhood in neighborhoods.groups {
        var data := neighborhoods.groups[neighborhood];
        if |data.members| > 3 {
          rels := rels + [Collaboration(neighborhood, neighborhood + " has " + Str.NatToString(|data.members|) + " different industries", data.members)];
        }
      }
    }
    assert neighborhoods.order[..|neighborhoods.order|] == neighborhoods.order;
  }

  /** The industry map as the rest of the analysis sees it: grouped, then averaged. */
  function IndustryAnalysis(bs: seq<Business>): (r: Grouping)
    ensures r.order == IndustryGroups(bs).order && r.groups.Keys == IndustryGroups(bs).groups.Keys
    ensures WellFormed(r)
  {
    GroupByProps(bs, IndustryOf, NoMember);
    WithAverages(IndustryGroups(bs))
  }

  /** The entry of an industry in the averaged map: its businesses, count and totals are
      those of its rows, and the averages divide the totals by the count. */
  lemma IndustryEntry(bs: seq<Business>, k: string)
    requires k in IndustryAnalysis(bs).groups
    ensures var d := IndustryAnalysis(bs).groups[k];
      && d.businesses == InGroup(bs, IndustryOf, k) && d.count == |d.businesses| > 0
      && d.totalRevenue == RevenueSum(d.businesses) && d.totalEmployees == EmployeeSum(d.businesses)
    ensures AveragesKept(IndustryAnalysis(bs).groups[k])
  {
    GroupByProps(bs, IndustryOf, NoMember);
    var g := IndustryGroups(bs).groups[k];
    assert IndustryAnalysis(bs).groups[k] == Averaged(g);
    AveragedKept(g);
  }

  /** `data.businesses.map(b => b.neighborhood)` takes more than one value on an industry
      with more than one business. */
  ghost predicate Spans(bs: seq<Business>, k: string) {
    |InGroup(bs, IndustryOf, k)| > 1 && |Tally.FirstSeen(RawNeighborhoods(InGroup(bs, IndustryOf, k)))| > 1
  }

  lemma IndustryListed(bs: seq<Business>, i: nat)
    requires i < |bs|
    ensures IndustryOf(bs[i]) in IndustryAnalysis(bs).order
    ensures IndustryOf(bs[i]) in IndustryAnalysis(bs).groups
  {
    GroupByProps(bs, IndustryOf, NoMember);
  }

  lemma NeighborhoodEntry(bs: seq<Business>, k: string)
    requires k in NeighborhoodGroups(bs).groups
    ensures k in NeighborhoodGroups(bs).order
    ensures GroupFacts(NeighborhoodGroups(bs).groups[k], InGroup(bs, NeighborhoodOf, k), IndustryMember)
  {
    GroupByProps(bs, NeighborhoodOf, IndustryMember);
  }

  lemma ExpansionsSound(bs: seq<Business>)
    ensures forall r :: r in Expansions(IndustryAnalysis(bs)) ==>
      r.Expansion? && Spans(bs, r.industry)
      && r.neighborhoods == Tally.FirstSeen(RawNeighborhoods(InGroup(bs, IndustryOf, r.industry)))
  {
    var g := IndustryAnalysis(bs);
    CollectProps(g.order, ExpansionOf(g));
    forall r | r in Expansions(g)
      ensures r.Expansion? && Spans(bs, r.industry)
        && r.neighborhoods == Tally.FirstSeen(RawNeighborhoods(InGroup(bs, IndustryOf, r.industry)))
    {
      var k :| k in g.order && ExpansionOf(g)(k) == Some(r);
      ExpansionSound(bs, k, r);
    }
  }

  /** The expansion an industry yields is about that industry and its rows. */
  lemma ExpansionSound(bs: seq<Business>, k: string, r: Relationship)
    requires ExpansionOf(IndustryAnalysis(bs))(k) == Some(r)
    ensures r.Expansion? && r.industry == k && Spans(bs, k)
    ensures r.neighborhoods == Tally.FirstSeen(RawNeighborhoods(InGroup(bs, IndustryOf, k)))
  {
    IndustryEntry(bs, k);
  }

  lemma ExpansionsComplete(bs: seq<Business>)
    ensures forall i :: 0 <= i < |bs| && Spans(bs, IndustryOf(bs[i])) ==>
      exists r :: r in Expansions(IndustryAnalysis(bs)) && r.Expansion? && r.industry == IndustryOf(bs[i])
  {
    var g := IndustryAnalysis(bs);
    CollectProps(g.order, ExpansionOf(g));
    forall i | 0 <= i < |bs| && Spans(bs, IndustryOf(bs[i]))
      ensures exists r :: r in Expansions(g) && r.Expansion? && r.industry == IndustryOf(bs[i])
    {
      var k := IndustryOf(bs[i]);
      IndustryListed(bs, i);
      IndustryEntry(bs, k);
      var r := ExpansionOf(g)(k).value;
      assert ExpansionOf(g)(k) == Some(r);
      assert r in Expansions(g);
    }
  }

  /** An expansion opportunity is reported for exactly the industries that span more than
      one neighbourhood value, with those values in first-seen order. */
  lemma ExpansionsProps(bs: seq<Business>)
    ensures var rels := Expansions(IndustryAnalysis(bs));
      && (forall r :: r in rels ==>
            r.Expansion? && Spans(bs, r.industry)
            && r.neighborhoods == Tally.FirstSeen(RawNeighborhoods(InGroup(bs, IndustryOf, r.industry))))
      && (forall i :: 0 <= i < |bs| && Spans(bs, IndustryOf(bs[i])) ==>
            exists r :: r in rels && r.Expansion? && r.industry == IndustryOf(bs[i]))
  {
    ExpansionsSound(bs);
    ExpansionsComplete(bs);
  }

  lemma HubsSound(bs: seq<Business>)
    ensures forall r :: r in Hubs(NeighborhoodGroups(bs)) ==>
      && r.Collaboration? && |r.industries| > 3 && Tally.Distinct(r.industries)
      && forall m :: m in r.industries <==>
           exists b :: b in InGroup(bs, NeighborhoodOf, r.neighborhood) && IndustryOf(b) == m
  {
    var nb := NeighborhoodGroups(bs);
    CollectProps(nb.order, HubOf(nb));
    forall r | r in Hubs(nb)
      ensures && r.Collaboration? && |r.industries| > 3 && Tally.Distinct(r.industries)
        && forall m :: m in r.industries <==>
             exists b :: b in InGroup(bs, NeighborhoodOf, r.neighborhood) && IndustryOf(b) == m
    {
      var k :| k in nb.order && HubOf(nb)(k) == Some(r);
      HubMembers(bs, k, r);
    }
  }

  lemma HubMembers(bs: seq<Business>, k: string, r: Relationship)
    requires HubOf(NeighborhoodGroups(bs))(k) == Some(r)
    ensures && r.Collaboration? && |r.industries| > 3 && Tally.Distinct(r.industries)
      && forall m :: m in r.industries <==>
           exists b :: b in InGroup(bs, NeighborhoodOf, r.neighborhood) && IndustryOf(b) == m
  {
    var nb := NeighborhoodGroups(bs);
    var d := nb.groups[k];
    assert r.neighborhood == k && r.industries == d.members;
    NeighborhoodEntry(bs, k);
    forall m ensures m in d.members <==> exists b :: b in InGroup(bs, NeighborhoodOf, k) && IndustryOf(b) == m {
      assert m in d.members <==> exists b :: b in InGroup(bs, NeighborhoodOf, k) && IndustryMember(b) == Some(m);
    }
  }

  lemma HubsComplete(bs: seq<Business>)
    ensures var nb := NeighborhoodGroups(bs);
      forall k :: k in nb.groups && |nb.groups[k].members| > 3 ==>
        exists r :: r in Hubs(nb) && r.Collaboration? && r.neighborhood == k
  {
    var nb := NeighborhoodGroups(bs);
    CollectProps(nb.order, HubOf(nb));
    forall k | k in nb.groups && |nb.groups[k].members| > 3
      ensures exists r :: r in Hubs(nb) && r.Collaboration? && r.neighborhood == k
    {
      NeighborhoodEntry(bs, k);
      var r := HubOf(nb)(k).value;
      assert HubOf(nb)(k) == Some(r);
      assert r in Hubs(nb);
    }
  }

  /** A collaboration hub is reported for exactly the neighbourhoods whose businesses
      belong to more than three industries (the entry's set of industries); it lists each
      of those industries once. */
  lemma HubsProps(bs: seq<Business>)
    ensures var nb := NeighborhoodGroups(bs);
      && (forall r :: r in Hubs(nb) ==>
            && r.Collaboration? && |r.industries| > 3 && Tally.Distinct(r.industries)
            && forall m :: m in r.industries <==>
                 exists b :: b in InGroup(bs, NeighborhoodOf, r.neighborhood) && IndustryOf(b) == m)
      && (forall k :: k in nb.groups && |nb.groups[k].members| > 3 ==>
            exists r :: r in Hubs(nb) && r.Collaboration? && r.neighborhood == k)
  {
    HubsSound(bs);
    HubsComplete(bs);
  }

  /** A neighbourhood without any business of an industry, as found by the analysis. */
  datatype MarketGap = MarketGap(
    industry: string, neighborhood: string, opportunity: string, potentialRevenue: real, marketSize: nat)

  /** `b[1].totalRevenue`, the sort key of the market-gap industries. */
  function RevenueKey(g: Grouping): string -> int {
    k => if k in g.groups then g.groups[k].totalRevenue else 0
  }

  /** The five industries with the largest total revenue, ties in insertion order. */
  function TopRevenue(g: Grouping): seq<string> { Ranking.TopBy(g.order, RevenueKey(g), 5) }

  /** The neighbourhoods with more than five businesses, in insertion order. */
  function Established(g: Grouping): seq<string> {
    Seqs.Where(g.order, k => k in g.groups && g.groups[k].count > 5)
  }

  /** `neighborhoodMap.get(neighborhood)?.count || 0`. */
  function MarketSize(g: Grouping, n: string): nat { if n in g.groups then g.groups[n].count else 0 }

  /** Line 125 as written: some business's raw `neighborhood` column equals the key. */
  predicate RawPresence(d: Group, n: string) { exists b :: b in d.businesses && b.neighborhood == Some(n) }

  /** The presence test the grouping calls for: some business files under the key. */
  predicate Presence(d: Group, n: string) { exists b :: b in d.businesses && NeighborhoodOf(b) == n }

  function Gap(k: string, d: Group, nb: Grouping, n: string): MarketGap {
    MarketGap(k, n, "No " + k + " presence in " + n, d.avgRevenue, MarketSize(nb, n))
  }

  /** The gaps of industry `k` among the first `m` established neighbourhoods. */
  function GapsFor(k: string, d: Group, nb: Grouping, est: seq<string>, present: (Group, string) -> bool, m: nat): seq<MarketGap>
    requires m <= |est|
  {
    if m == 0 then []
    else GapsFor(k, d, nb, est, present, m - 1) + (if !present(d, est[m - 1]) then [Gap(k, d, nb, est[m - 1])] else [])
  }

  /** The gaps of the first `i` top industries, industry by industry. */
  function AllGaps(top: seq<string>, ind: Grouping, nb: Grouping, est: seq<string>, present: (Group, string) -> bool, i: nat): seq<MarketGap>
    requires i <= |top|
  {
    if i == 0 then []
    else
      AllGaps(top, ind, nb, est, present, i - 1)
      + (if top[i - 1] in ind.groups then GapsFor(top[i - 1], ind.groups[top[i - 1]], nb, est, present, |est|) else [])
  }

  /** Every pair of a top industry and an established neighbourhood, as `present` decides. */
  function Gaps(ind: Grouping, nb: Grouping, present: (Group, string) -> bool): seq<MarketGap> {
    AllGaps(TopRevenue(ind), ind, nb, Established(nb), present, |TopRevenue(ind)|)
  }

  /** The nested `forEach` of lines 123-136, with the presence test of line 125 as written. */
  method FindMarketGaps(ind: Grouping, nb: Grouping) returns (gaps: seq<MarketGap>)
    ensures gaps == Gaps(ind, nb, RawPresence)
  {
    var top := TopRevenue(ind);
    var est := Established(nb);
    gaps := [];
    for i := 0 to |top|
      invariant gaps == AllGaps(top, ind, nb, est, RawPresence, i)
    {
      var industry := top[i];
      if industry in ind.groups {
        var data := ind.groups[industry];
        ghost var before := gaps;
        for j := 0 to |est|
          invariant gaps == before + GapsFor(industry, data, nb, est, RawPresence, j)
        {
          var neighborhood := est[j];
          if !RawPresence(data, neighborhood) {
            gaps := gaps + [Gap(industry, data, nb, neighborhood)];
          }
        }
      }
    }
  }

  lemma {:induction false} GapsForProps(k: string, d: Group, nb: Grouping, est: seq<string>, present: (Group, string) -> bool, m: nat)
    requires m <= |est|
    ensures forall g :: g in GapsFor(k, d, nb, est, present, m) <==>
      exists j :: 0 <= j < m && !present(d, est[j]) && g == Gap(k, d, nb, est[j])
  {
    if m > 0 {
      GapsForProps(k, d, nb, est, present, m - 1);
    }
  }

  /** The gaps listed are exactly the pairs of a top industry and an established
      neighbourhood where `present` finds no business of the industry. */
  lemma {:induction false} AllGapsProps(top: seq<string>, ind: Grouping, nb: Grouping, est: seq<string>, present: (Group, string) -> bool, i: nat)
    requires i <= |top|
    ensures forall g :: g in AllGaps(top, ind, nb, est, present, i) <==>
      exists a, j :: 0 <= a < i && 0 <= j < |est| && top[a] in ind.groups
        && !present(ind.groups[top[a]], est[j]) && g == Gap(top[a], ind.groups[top[a]], nb, est[j])
  {
    if i > 0 {
      AllGapsProps(top, ind, nb, est, present, i - 1);
      if top[i - 1] in ind.groups {
        GapsForProps(top[i - 1], ind.groups[top[i - 1]], nb, est, present, |est|);
      }
    }
  }

  lemma IndustryEntryListed(bs: seq<Business>, k: string)
    requires k in IndustryAnalysis(bs).groups
    ensures forall b :: b in IndustryAnalysis(bs).groups[k].businesses <==> b in bs && IndustryOf(b) == k
  {
    IndustryEntry(bs, k);
    InGroupMembers(bs, IndustryOf, k);
  }

  /** One reported gap: its industry is a top industry, its neighbourhood holds more than
      five businesses, none of them of that industry, and it carries the industry's average
      revenue and the neighbourhood's business count. */
  lemma GapSound(bs: seq<Business>, g: MarketGap)
    requires g in Gaps(IndustryAnalysis(bs), NeighborhoodGroups(bs), Presence)
    ensures g.industry in TopRevenue(IndustryAnalysis(bs)) && g.industry in IndustryAnalysis(bs).groups
    ensures g.marketSize == |InGroup(bs, NeighborhoodOf, g.neighborhood)| > 5
    ensures forall i :: 0 <= i < |bs| && IndustryOf(bs[i]) == g.industry ==> NeighborhoodOf(bs[i]) != g.neighborhood
    ensures g.potentialRevenue == IndustryAnalysis(bs).groups[g.industry].avgRevenue
  {
    var ind := IndustryAnalysis(bs);
    var nb := NeighborhoodGroups(bs);
    var top := TopRevenue(ind);
    var est := Established(nb);
    AllGapsProps(top, ind, nb, est, Presence, |top|);
    var a, j :| 0 <= a < |top| && 0 <= j < |est| && top[a] in ind.groups
      && !Presence(ind.groups[top[a]], est[j]) && g == Gap(top[a], ind.groups[top[a]], nb, est[j]);
    assert est[j] in est;
    NeighborhoodEntry(bs, est[j]);
    IndustryEntryListed(bs, top[a]);
    forall i | 0 <= i < |bs| && IndustryOf(bs[i]) == g.industry ensures NeighborhoodOf(bs[i]) != g.neighborhood {
      assert bs[i] in ind.groups[top[a]].businesses;
    }
  }

  /** Every pair of a top industry and an established neighbourhood without a business of
      that industry is a gap. */
  lemma GapsComplete(bs: seq<Business>, k: string, n: string)
    requires k in TopRevenue(IndustryAnalysis(bs)) && n in Established(NeighborhoodGroups(bs))
    requires forall i :: 0 <= i < |bs| && IndustryOf(bs[i]) == k ==> NeighborhoodOf(bs[i]) != n
    ensures exists g ::
      g in Gaps(IndustryAnalysis(bs), NeighborhoodGroups(bs), Presence) && g.industry == k && g.neighborhood == n
  {
    var ind := IndustryAnalysis(bs);
    var nb := NeighborhoodGroups(bs);
    var top := TopRevenue(ind);
    var est := Established(nb);
    Ranking.TopByProps(ind.order, RevenueKey(ind), 5);
    assert k in multiset(top);
    assert k in ind.order;
    IndustryEntry(bs, k);
    IndustryEntryListed(bs, k);
    var a :| 0 <= a < |top| && top[a] == k;
    var j :| 0 <= j < |est| && est[j] == n;
    assert !Presence(ind.groups[k], n) by {
      forall b | b in ind.groups[k].businesses ensures NeighborhoodOf(b) != n {
        var i :| 0 <= i < |bs| && bs[i] == b;
      }
    }
    AllGapsProps(top, ind, nb, est, Presence, |top|);
    var g := Gap(k, ind.groups[k], nb, n);
    assert g in Gaps(ind, nb, Presence);
  }

  /** The top industries: at most five, by total revenue descending, and no industry left
      out earns more than one kept. */
  lemma TopRevenueProps(ind: Grouping)
    ensures var top := TopRevenue(ind);
      && |top| <= 5 && Ranking.SortedDesc(top, RevenueKey(ind))
      && (forall k :: k in ind.order && k !in top ==> forall d :: d in top ==> RevenueKey(ind)(d) >= RevenueKey(ind)(k))
  {
    Ranking.TopByProps(ind.order, RevenueKey(ind), 5);
  }

  /** The reported gaps: at most ten, each a sound gap. */
  lemma ReportedGapsSound(bs: seq<Business>)
    ensures var gaps := Ranking.Take(Gaps(IndustryAnalysis(bs), NeighborhoodGroups(bs), Presence), 10);
      && |gaps| <= 10
      && (forall g :: g in gaps ==>
            && g.industry in TopRevenue(IndustryAnalysis(bs))
            && g.marketSize == |InGroup(bs, NeighborhoodOf, g.neighborhood)| > 5
            && forall i :: 0 <= i < |bs| && IndustryOf(bs[i]) == g.industry ==> NeighborhoodOf(bs[i]) != g.neighborhood)
  {
    var all := Gaps(IndustryAnalysis(bs), NeighborhoodGroups(bs), Presence);
    forall g | g in Ranking.Take(all, 10)
      ensures && g.industry in TopRevenue(IndustryAnalysis(bs))
        && g.marketSize == |InGroup(bs, NeighborhoodOf, g.neighborhood)| > 5
        && forall i :: 0 <= i < |bs| && IndustryOf(bs[i]) == g.industry ==> NeighborhoodOf(bs[i]) != g.neighborhood
    {
      assert g in all;
      GapSound(bs, g);
    }
  }

  /** The market gaps: at most ten, drawn from the top five industries by total revenue
      (no industry left out earns more than one kept), each a sound gap. */
  lemma MarketGapsProps(bs: seq<Business>)
    ensures var ind := IndustryAnalysis(bs);
      var top := TopRevenue(ind);
      var gaps := Ranking.Take(Gaps(ind, NeighborhoodGroups(bs), Presence), 10);
      && |gaps| <= 10
      && |top| <= 5 && Ranking.SortedDesc(top, RevenueKey(ind))
      && (forall k :: k in ind.order && k !in top ==> forall d :: d in top ==> RevenueKey(ind)(d) >= RevenueKey(ind)(k))
      && (forall g :: g in gaps ==>
            && g.industry in top
            && g.marketSize == |InGroup(bs, NeighborhoodOf, g.neighborhood)| > 5
            && forall i :: 0 <= i < |bs| && IndustryOf(bs[i]) == g.industry ==> NeighborhoodOf(bs[i]) != g.neighborhood)
  {
    TopRevenueProps(IndustryAnalysis(bs));
    ReportedGapsSound(bs);
  }

  /** One gap as line 125 reports it: its industry is a top industry, its neighbourhood
      holds more than five businesses, and no business of the industry has that raw
      neighbourhood value. */
  lemma RawGapSound(bs: seq<Business>, g: MarketGap)
    requires g in Gaps(IndustryAnalysis(bs), NeighborhoodGroups(bs), RawPresence)
    ensures g.industry in TopRevenue(IndustryAnalysis(bs)) && g.industry in IndustryAnalysis(bs).groups
    ensures g.marketSize == |InGroup(bs, NeighborhoodOf, g.neighborhood)| > 5
    ensures forall i :: 0 <= i < |bs| && IndustryOf(bs[i]) == g.industry ==> bs[i].neighborhood != Some(g.neighborhood)
    ensures g.potentialRevenue == IndustryAnalysis(bs).groups[g.industry].avgRevenue
  {
    var ind := IndustryAnalysis(bs);
    var nb := NeighborhoodGroups(bs);
    var top := TopRevenue(ind);
    var est := Established(nb);
    AllGapsProps(top, ind, nb, est, RawPresence, |top|);
    var a, j :| 0 <= a < |top| && 0 <= j < |est| && top[a] in ind.groups
      && !RawPresence(ind.groups[top[a]], est[j]) && g == Gap(top[a], ind.groups[top[a]], nb, est[j]);
    assert est[j] in est;
    NeighborhoodEntry(bs, est[j]);
    IndustryEntryListed(bs, top[a]);
    forall i | 0 <= i < |bs| && IndustryOf(bs[i]) == g.industry ensures bs[i].neighborhood != Some(g.neighborhood) {
      assert bs[i] in ind.groups[top[a]].businesses;
    }
  }

  /** Away from "Unknown" the test as written agrees with the corrected one: every gap it
      reports in a named neighbourhood is a gap of the corrected test too. */
  lemma RawGapCorrect(bs: seq<Business>, g: MarketGap)
    requires g in Gaps(IndustryAnalysis(bs), NeighborhoodGroups(bs), RawPresence) && g.neighborhood != "Unknown"
    ensures g in Gaps(IndustryAnalysis(bs), NeighborhoodGroups(bs), Presence)
  {
    var ind := IndustryAnalysis(bs);
    var nb := NeighborhoodGroups(bs);
    var top := TopRevenue(ind);
    var est := Established(nb);
    AllGapsProps(top, ind, nb, est, RawPresence, |top|);
    var a, j :| 0 <= a < |top| && 0 <= j < |est| && top[a] in ind.groups
      && !RawPresence(ind.groups[top[a]], est[j]) && g == Gap(top[a], ind.groups[top[a]], nb, est[j]);
    var d := ind.groups[top[a]];
    forall b | b in d.businesses ensures NeighborhoodOf(b) != est[j] {
      if Js.Filled(b.neighborhood) {
        assert b.neighborhood == Some(NeighborhoodOf(b));
      }
    }
    AllGapsProps(top, ind, nb, est, Presence, |top|);
  }

  /** The gaps the analysis reports: at most ten, each a gap as line 125 decides it, and
      each outside "Unknown" also a gap of the corrected test. */
  lemma ReportedGapsAsWritten(bs: seq<Business>)
    ensures var gaps := AnalysisOf(bs).marketGaps;
      && |gaps| <= 10
      && forall g :: g in gaps ==>
           && g.industry in TopRevenue(IndustryAnalysis(bs))
           && g.marketSize == |InGroup(bs, NeighborhoodOf, g.neighborhood)| > 5
           && (forall i :: 0 <= i < |bs| && IndustryOf(bs[i]) == g.industry ==> bs[i].neighborhood != Some(g.neighborhood))
           && (g.neighborhood != "Unknown" ==> g in Gaps(IndustryAnalysis(bs), NeighborhoodGroups(bs), Presence))
  {
    var all := Gaps(IndustryAnalysis(bs), NeighborhoodGroups(bs), RawPresence);
    assert AnalysisOf(bs).marketGaps == Ranking.Take(all, 10);
    forall g | g in Ranking.Take(all, 10)
      ensures && g.industry in TopRevenue(IndustryAnalysis(bs))
        && g.marketSize == |InGroup(bs, NeighborhoodOf, g.neighborhood)| > 5
        && (forall i :: 0 <= i < |bs| && IndustryOf(bs[i]) == g.industry ==> bs[i].neighborhood != Some(g.neighborhood))
        && (g.neighborhood != "Unknown" ==> g in Gaps(IndustryAnalysis(bs), NeighborhoodGroups(bs), Presence))
    {
      assert g in all;
      RawGapSound(bs, g);
      if g.neighborhood != "Unknown" {
        RawGapCorrect(bs, g);
      }
    }
  }

  /** An industry whose businesses have no neighbourhood: they all file under "Unknown". */
  const UNPLACED_TECH := Business(Some("Tech"), None, None, None, None)

  lemma InGroupAll(bs: seq<Business>, keyOf: Business -> string, k: string)
    requires forall i :: 0 <= i < |bs| ==> keyOf(bs[i]) == k
    ensures InGroup(bs, keyOf, k) == bs
    decreases |bs|
  {
    if bs != [] {
      var init := bs[..|bs| - 1];
      assert bs == init + [bs[|bs| - 1]];
      InGroupAll(init, keyOf, k);
    }
  }

  lemma {:induction false} SingleKeyOrder(bs: seq<Business>, keyOf: Business -> string, memberOf: Business -> Option<string>, k: string)
    requires forall i :: 0 <= i < |bs| ==> keyOf(bs[i]) == k
    ensures GroupBy(bs, keyOf, memberOf).order == if bs == [] then [] else [k]
    decreases |bs|
  {
    if bs != [] {
      var init := bs[..|bs| - 1];
      assert bs == init + [bs[|bs| - 1]];
      SingleKeyOrder(init, keyOf, memberOf, k);
      if init != [] {
        GroupByProps(init, keyOf, memberOf);
        assert keyOf(init[0]) == k;
      }
    }
  }

  /** A grouping of rows that all share one key has that key alone. */
  lemma SingleKey(bs: seq<Business>, keyOf: Business -> string, memberOf: Business -> Option<string>, k: string)
    requires bs != [] && forall i :: 0 <= i < |bs| ==> keyOf(bs[i]) == k
    ensures GroupBy(bs, keyOf, memberOf).order == [k]
    ensures GroupFacts(GroupBy(bs, keyOf, memberOf).groups[k], bs, memberOf)
  {
    SingleKeyOrder(bs, keyOf, memberOf, k);
    GroupByProps(bs, keyOf, memberOf);
    assert keyOf(bs[0]) == k;
    InGroupAll(bs, keyOf, k);
  }

  /** All rows unplaced businesses of "Tech". */
  ghost predicate AllUnplacedTech(bs: seq<Business>) {
    |bs| > 5 && forall i :: 0 <= i < |bs| ==> bs[i] == UNPLACED_TECH
  }

  lemma UnplacedEntry(bs: seq<Business>)
    requires AllUnplacedTech(bs)
    ensures IndustryAnalysis(bs).order == ["Tech"]
    ensures "Tech" in IndustryAnalysis(bs).groups && IndustryAnalysis(bs).groups["Tech"].businesses == bs
  {
    SingleKey(bs, IndustryOf, NoMember, "Tech");
    assert IndustryAnalysis(bs).groups["Tech"] == Averaged(IndustryGroups(bs).groups["Tech"]);
  }

  lemma TopOfOne(x: string, f: string -> int)
    ensures Ranking.TopBy([x], f, 5) == [x]
  {
    var sorted := Ranking.SortDesc([x], f);
    assert sorted[0] in multiset(sorted);
  }

  lemma UnplacedTop(bs: seq<Business>)
    requires AllUnplacedTech(bs)
    ensures TopRevenue(IndustryAnalysis(bs)) == ["Tech"]
  {
    UnplacedEntry(bs);
    TopOfOne("Tech", RevenueKey(IndustryAnalysis(bs)));
  }

  lemma UnplacedEstablished(bs: seq<Business>)
    requires AllUnplacedTech(bs)
    ensures Established(NeighborhoodGroups(bs)) == ["Unknown"]
    ensures MarketSize(NeighborhoodGroups(bs), "Unknown") == |bs|
  {
    var nb := NeighborhoodGroups(bs);
    SingleKey(bs, NeighborhoodOf, IndustryMember, "Unknown");
    var est := Established(nb);
    assert "Unknown" in est;
    assert est == ["Unknown"];
  }

  /** Six or more businesses of one industry, none with a neighbourhood: they make up the
      established neighbourhood "Unknown", yet the test of line 125 finds the industry
      absent from it and reports one gap; the corrected test reports none. */
  lemma UnplacedGapAsWritten(bs: seq<Business>)
    requires AllUnplacedTech(bs)
    ensures forall i :: 0 <= i < |bs| ==> IndustryOf(bs[i]) == "Tech" && NeighborhoodOf(bs[i]) == "Unknown"
    ensures var gaps := Ranking.Take(Gaps(IndustryAnalysis(bs), NeighborhoodGroups(bs), RawPresence), 10);
      |gaps| == 1 && gaps[0].industry == "Tech" && gaps[0].neighborhood == "Unknown" && gaps[0].marketSize == |bs|
    ensures Gaps(IndustryAnalysis(bs), NeighborhoodGroups(bs), Presence) == []
  {
    var ind := IndustryAnalysis(bs);
    var nb := NeighborhoodGroups(bs);
    UnplacedEntry(bs);
    UnplacedTop(bs);
    UnplacedEstablished(bs);
    var top := ["Tech"];
    var est := ["Unknown"];
    var d := ind.groups["Tech"];
    assert !RawPresence(d, "Unknown");
    assert bs[0] in d.businesses;
    assert Presence(d, "Unknown");
    assert GapsFor("Tech", d, nb, est, RawPresence, 1) == [Gap("Tech", d, nb, "Unknown")];
    assert GapsFor("Tech", d, nb, est, Presence, 1) == [];
    assert AllGaps(top, ind, nb, est, RawPresence, 1) == [Gap("Tech", d, nb, "Unknown")];
    assert AllGaps(top, ind, nb, est, Presence, 1) == [];
  }

  /** Business sizes by head count. */
  datatype Sizes = Sizes(small: nat, medium: nat, large: nat)

  function Total(s: Sizes): nat { s.small + s.medium + s.large }

  /** `employees < 50` is small, `< 250` medium, anything else large. */
  function Classify(s: Sizes, b: Business): Sizes {
    if Employees(b) < 50 then s.(small := s.small + 1)
    else if Employees(b) < 250 then s.(medium := s.medium + 1)
    else s.(large := s.large + 1)
  }

  /** `acc` after the first `n` businesses of `bs` were classified. */
  function SizeTally(acc: Sizes, bs: seq<Business>, n: nat): Sizes
    requires n <= |bs|
  {
    if n == 0 then acc else Classify(SizeTally(acc, bs, n - 1), bs[n - 1])
  }

  /** The distribution after the first `i` industries' businesses were classified. */
  function SizesOver(g: Grouping, i: nat): Sizes
    requires i <= |g.order|
  {
    if i == 0 then Sizes(0, 0, 0)
    else
      var acc := SizesOver(g, i - 1);
      var k := g.order[i - 1];
      if k in g.groups then SizeTally(acc, g.groups[k].businesses, |g.groups[k].businesses|) else acc
  }

  /** The nested loops of lines 198-206. */
  method SizeDistribution(g: Grouping) returns (sizes: Sizes)
    ensures sizes == SizesOver(g, |g.order|)
  {
    sizes := Sizes(0, 0, 0);
    for i := 0 to |g.order|
      invariant sizes == SizesOver(g, i)
    {
      var k := g.order[i];
      if k in g.groups {
        var bs := g.groups[k].businesses;
        ghost var acc := sizes;
        for j := 0 to |bs|
          invariant sizes == SizeTally(acc, bs, j)
        {
          var employees := Employees(bs[j]);
          if employees < 50 {
            sizes := sizes.(small := sizes.small + 1);
          } else if employees < 250 {
            sizes := sizes.(medium := sizes.medium + 1);
          } else {
            sizes := sizes.(large := sizes.large + 1);
          }
        }
      }
    }
  }

  lemma {:induction false} SizeTallyTotal(acc: Sizes, bs: seq<Business>, n: nat)
    requires n <= |bs|
    ensures Total(SizeTally(acc, bs, n)) == Total(acc) + n
  {
    if n > 0 {
      SizeTallyTotal(acc, bs, n - 1);
    }
  }

  lemma {:induction false} SizesOverTotal(g: Grouping, h: Grouping, i: nat)
    requires g.order == h.order && i <= |g.order|
    requires forall k :: k in h.order ==> k in g.groups && k in h.groups && |g.groups[k].businesses| == h.groups[k].count
    ensures Total(SizesOver(g, i)) == CountSum(h.order[..i], h.groups)
  {
    if i > 0 {
      var k := g.order[i - 1];
      assert h.order[..i][..i - 1] == h.order[..i - 1];
      SizesOverTotal(g, h, i - 1);
      SizeTallyTotal(SizesOver(g, i - 1), g.groups[k].businesses, |g.groups[k].businesses|);
    }
  }

  /** Every business is classified once: the three sizes add up to the number of
      businesses. */
  lemma SizesCover(bs: seq<Business>)
    ensures Total(SizesOver(IndustryAnalysis(bs), |IndustryAnalysis(bs).order|)) == |bs|
  {
    var h := IndustryGroups(bs);
    var g := IndustryAnalysis(bs);
    GroupByProps(bs, IndustryOf, NoMember);
    forall k | k in h.order ensures k in g.groups && k in h.groups && |g.groups[k].businesses| == h.groups[k].count {
      assert g.groups[k] == Averaged(h.groups[k]);
    }
    SizesOverTotal(g, h, |g.order|);
    assert h.order[..|h.order|] == h.order;
  }

  /** The pieces of the three insights that carry data; the titles are fixed. The
      top-industries insight text formats the average in millions with `toFixed(1)` and
      is not kept. */
  datatype TopIndustry = TopIndustry(industry: string, avgRevenue: real, businessCount: nat)
  datatype EmergingArea = EmergingArea(neighborhood: string, businessCount: nat, industryDiversity: nat, insight: string)
  datatype Insights = Insights(topIndustries: seq<TopIndustry>, emergingAreas: seq<EmergingArea>, sizes: Sizes, sizeInsight: string)

  /** `b[1].avgRevenue - a[1].avgRevenue` as a comparison: higher average first. */
  function AvgKey(g: Grouping): string -> real { k => if k in g.groups then g.groups[k].avgRevenue else 0.0 }
  function AvgFirst(g: Grouping): (string, string) -> bool { (a, b) => AvgKey(g)(a) >= AvgKey(g)(b) }

  lemma AvgFirstTotal(g: Grouping)
    ensures Ranking.TotalPreorder(AvgFirst(g))
  {
  }

  /** The three industries with the highest average revenue, ties in insertion order. */
  function TopAverage(g: Grouping): seq<string> { Ranking.Take(Ranking.SortBy(g.order, AvgFirst(g)), 3) }

  function TopIndustryOf(g: Grouping, k: string): TopIndustry {
    if k in g.groups then TopIndustry(k, g.groups[k].avgRevenue, g.groups[k].count) else TopIndustry(k, 0.0, 0)
  }

  /** `data.industries.size`, the sort key of the emerging neighbourhoods. */
  function Diversity(g: Grouping): string -> int { k => if k in g.groups then |g.groups[k].members| else 0 }

  /** Neighbourhoods with at least three businesses and at least three industries. */
  function Diverse(g: Grouping): seq<string> {
    Seqs.Where(g.order, k => k in g.groups && g.groups[k].count >= 3 && |g.groups[k].members| >= 3)
  }

  /** The three most diverse of those, ties in insertion order. */
  function Emerging(g: Grouping): seq<string> { Ranking.TopBy(Diverse(g), Diversity(g), 3) }

  function AreaOf(g: Grouping, k: string): EmergingArea {
    var n := if k in g.groups then |g.groups[k].members| else 0;
    EmergingArea(k, if k in g.groups then g.groups[k].count else 0, n,
      k + " shows strong business diversity with " + Str.NatToString(n) + " different industries")
  }

  function SizeInsight(s: Sizes): string {
    "Small businesses (" + Str.NatToString(s.small) + ") dominate the ecosystem, with "
      + Str.NatToString(s.medium) + " medium and " + Str.NatToString(s.large) + " large businesses"
  }

  /** What `generateBusinessInsights` returns for the averaged industry map and the
      neighbourhood map; the cluster map it is passed is not read. */
  function InsightsOf(ind: Grouping, nb: Grouping): Insights {
    var top := TopAverage(ind);
    var areas := Emerging(nb);
    var sizes := SizesOver(ind, |ind.order|);
    Insights(seq(|top|, i requires 0 <= i < |top| => TopIndustryOf(ind, top[i])),
             seq(|areas|, i requires 0 <= i < |areas| => AreaOf(nb, areas[i])),
             sizes, SizeInsight(sizes))
  }

  /** `generateBusinessInsights` (lines 161-216). */
  method GenerateBusinessInsights(ind: Grouping, nb: Grouping) returns (r: Insights)
    ensures r == InsightsOf(ind, nb)
  {
    var top := TopAverage(ind);
    var areas := Emerging(nb);
    var sizes := SizeDistribution(ind);
    r := Insights(seq(|top|, i requires 0 <= i < |top| => TopIndustryOf(ind, top[i])),
                  seq(|areas|, i requires 0 <= i < |areas| => AreaOf(nb, areas[i])),
                  sizes, SizeInsight(sizes));
  }

  /** The top industries are at most three, highest average first, and no industry left
      out has a higher average than one kept; the emerging areas are at most three
      neighbourhoods with at least three businesses and three industries, most diverse
      first, and no such neighbourhood left out is more diverse than one kept. */
  lemma InsightsProps(ind: Grouping, nb: Grouping)
    ensures var top := TopAverage(ind);
      && |top| <= 3 && Ranking.SortedBy(top, AvgFirst(ind))
      && forall k :: k in ind.order && k !in top ==> forall d :: d in top ==> AvgKey(ind)(d) >= AvgKey(ind)(k)
    ensures var areas := Emerging(nb);
      && |areas| <= 3 && Ranking.SortedDesc(areas, Diversity(nb))
      && (forall k :: k in areas ==> k in nb.groups && nb.groups[k].count >= 3 && |nb.groups[k].members| >= 3)
      && forall k :: k in Diverse(nb) && k !in areas ==> forall d :: d in areas ==> Diversity(nb)(d) >= Diversity(nb)(k)
  {
    TopAverageProps(ind);
    EmergingProps(nb);
  }

  /** The top-industries half of `InsightsProps`. */
  lemma TopAverageProps(ind: Grouping)
    ensures var top := TopAverage(ind);
      && |top| <= 3 && Ranking.SortedBy(top, AvgFirst(ind))
      && forall k :: k in ind.order && k !in top ==> forall d :: d in top ==> AvgKey(ind)(d) >= AvgKey(ind)(k)
  {
    AvgFirstTotal(ind);
    Ranking.SortBySorted(ind.order, AvgFirst(ind));
    Ranking.SortByTakeBest(ind.order, AvgFirst(ind), 3);
    var sorted := Ranking.SortBy(ind.order, AvgFirst(ind));
    assert TopAverage(ind) == sorted[..|TopAverage(ind)|];
  }

  /** The emerging-areas half of `InsightsProps`. */
  lemma EmergingProps(nb: Grouping)
    ensures var areas := Emerging(nb);
      && |areas| <= 3 && Ranking.SortedDesc(areas, Diversity(nb))
      && (forall k :: k in areas ==> k in nb.groups && nb.groups[k].count >= 3 && |nb.groups[k].members| >= 3)
      && forall k :: k in Diverse(nb) && k !in areas ==> forall d :: d in areas ==> Diversity(nb)(d) >= Diversity(nb)(k)
  {
    Ranking.TopByProps(Diverse(nb), Diversity(nb), 3);
    forall k | k in Emerging(nb) ensures k in nb.groups && nb.groups[k].count >= 3 && |nb.groups[k].members| >= 3 {
      assert k in multiset(Emerging(nb));
      assert k in multiset(Diverse(nb));
      assert k in Diverse(nb);
    }
  }

  /** The `summary` of lines 139-146. */
  datatype Summary = Summary(
    totalBusinesses: nat, totalIndustries: nat, totalNeighborhoods: nat, totalClusters: nat,
    totalRevenue: int, totalEmployees: int)

  /** What `analyzeBusinessRelationships` returns for a read that gave rows; the three
      `Object.fromEntries(map)` are the groupings themselves. */
  datatype Analysis = Analysis(
    summary: Summary, industryAnalysis: Grouping, neighborhoodAnalysis: Grouping, clusterAnalysis: Grouping,
    relationships: seq<Relationship>, marketGaps: seq<MarketGap>, insights: Insights)

  function AnalysisOf(bs: seq<Business>): Analysis {
    var ind := IndustryAnalysis(bs);
    var nb := NeighborhoodGroups(bs);
    var cl := ClusterGroups(bs);
    Analysis(
      Summary(|bs|, |ind.groups|, |nb.groups|, |cl.groups|, RevenueSum(bs), EmployeeSum(bs)),
      ind, nb, cl, Expansions(ind) + Hubs(nb), Ranking.Take(Gaps(ind, nb, RawPresence), 10), InsightsOf(ind, nb))
  }

  /** `analyzeBusinessRelationships` (lines 10-158): no rows (the read failed) gives null;
      otherwise the one pass, the averages, the relationships, the gaps cut to ten, the
      summary and the insights. */
  method AnalyzeBusinessRelationships(rows: Option<seq<Business>>) returns (r: Option<Analysis>)
    ensures rows.None? ==> r == None
    ensures rows.Some? ==> r == Some(AnalysisOf(rows.value))
  {
    if rows.None? {
      return None;
    }
    var bs := rows.value;
    var maps := GroupBusinesses(bs);
    ScanGroups(bs);
    GroupByProps(bs, IndustryOf, NoMember);
    var industries := FillAverages(maps.industries);
    var relationships := FindRelationships(industries, maps.neighborhoods);
    var gaps := FindMarketGaps(industries, maps.neighborhoods);
    var summary := Summary(|bs|, |industries.groups|, |maps.neighborhoods.groups|, |maps.clusters.groups|,
                           RevenueSum(bs), EmployeeSum(bs));
    var insights := GenerateBusinessInsights(industries, maps.neighborhoods);
    r := Some(Analysis(summary, industries, maps.neighborhoods, maps.clusters, relationships,
                       Ranking.Take(gaps, 10), insights));
  }

  /** Each map keys every business under its defaulted key, and each map's counts add up
      to the number of businesses. */
  lemma GroupCountsProps(bs: seq<Business>)
    ensures var a := AnalysisOf(bs);
      && (forall i :: 0 <= i < |bs| ==>
            && IndustryOf(bs[i]) in a.industryAnalysis.groups
            && NeighborhoodOf(bs[i]) in a.neighborhoodAnalysis.groups
            && ClusterOf(bs[i]) in a.clusterAnalysis.groups)
      && CountSum(a.industryAnalysis.order, IndustryGroups(bs).groups) == |bs|
      && CountSum(a.neighborhoodAnalysis.order, a.neighborhoodAnalysis.groups) == |bs|
      && CountSum(a.clusterAnalysis.order, a.clusterAnalysis.groups) == |bs|
  {
    var a := AnalysisOf(bs);
    assert a.industryAnalysis == IndustryAnalysis(bs);
    assert a.neighborhoodAnalysis == NeighborhoodGroups(bs) && a.clusterAnalysis == ClusterGroups(bs);
    GroupCovers(bs, IndustryOf, NoMember);
    GroupCovers(bs, NeighborhoodOf, IndustryMember);
    GroupCovers(bs, ClusterOf, NeighborhoodMember);
  }

  /** Every business has its key in the map, and the counts add up to the businesses. */
  lemma GroupCovers(bs: seq<Business>, keyOf: Business -> string, memberOf: Business -> Option<string>)
    ensures forall i :: 0 <= i < |bs| ==> keyOf(bs[i]) in GroupBy(bs, keyOf, memberOf).groups
    ensures CountSum(GroupBy(bs, keyOf, memberOf).order, GroupBy(bs, keyOf, memberOf).groups) == |bs|
  {
    GroupByProps(bs, keyOf, memberOf);
  }

  datatype Body = NoBody | Failure(error: string) | Report(analysis: Analysis)
  datatype Response = Response(status: int, body: Body)

  /** The handler (lines 218-248): preflight, GET only, and a 500 when the analysis came
      back empty. */
  method Handle(verb: string, rows: Option<seq<Business>>) returns (resp: Response)
    ensures verb == "OPTIONS" ==> resp == Response(204, NoBody)
    ensures verb != "OPTIONS" && verb != "GET" ==> resp == Response(405, Failure("Method not allowed"))
    ensures verb == "GET" && rows.None? ==> resp == Response(500, Failure("Failed to generate business analysis"))
    ensures verb == "GET" && rows.Some? ==> resp == Response(200, Report(AnalysisOf(rows.value)))
  {
    if verb == "OPTIONS" {
      return Response(204, NoBody);
    }
    if verb != "GET" {
      return Response(405, Failure("Method not allowed"));
    }
    var analysis := AnalyzeBusinessRelationships(rows);
    if analysis.None? {
      return Response(500, Failure("Failed to generate business analysis"));
    }
    resp := Response(200, Report(analysis.value));
  }
}
