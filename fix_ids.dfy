/** The one-off repair of scripts/fix-corrupted-ids.js over the demo data file. Every
    business gets the id of its array position; the businesses whose id was left as
    `and Recreation"` by a broken CSV split are grouped by name, given a parent company id
    and an audit note, and have their industry restored. The array is updated in place. */
module FixCorruptedIds {
  import opened Wrappers
  import Str
  import Tally
  import Seqs

  /** The audit note pushed onto a repaired business's `dataFixNotes`. */
  datatype FixNote = FixNote(date: string, fix: string, originalCorruptedId: string,
                             assignedId: string, assignedParentId: string, note: string)

  /** The fields of a demo business that the repair reads or writes; a missing
      `dataFixNotes` is the empty list. */
  datatype DemoBusiness = DemoBusiness(id: string, name: string, industry: Option<string>,
                                       parentCompanyId: Option<string>, dataFixNotes: seq<FixNote>)

  const CORRUPT_ID := "and Recreation\""
  const ESCAPED_CORRUPT_ID := "and Recreation\\\""
  const ARTS := "Arts, Entertainment, and Recreation"
  const EXPECTED_COUNT := 294

  predicate IsCorruptId(id: string) { id == CORRUPT_ID || id == ESCAPED_CORRUPT_ID }

  predicate IsCorruptIndustry(industry: Option<string>) {
    industry == Some("\"Arts") || industry == Some("\\\"Arts")
  }

  /** `String(index + 1)`. */
  function PositionId(i: nat): string { Str.NatToString(i + 1) }

  // ---------------------------------------------------------------- parent company ids

  const PARENT_COMPANY_MAP: seq<(string, string)> := [
    ("Safe Harbor Kings Point", "SAFE_HARBOR_PARENT"),
    ("OrangeTheory Fitness Cornelius", "ORANGETHEORY_PARENT"),
    ("ACTIVATE Charlotte", "ACTIVATE_PARENT"),
    ("All Seasons Marina", "ALL_SEASONS_PARENT"),
    ("Burn Boot Camp Cornelius", "BURN_BOOT_PARENT"),
    ("Davidson Yoga Therapy", "DAVIDSON_YOGA_PARENT"),
    ("HOTWORX Cornelius", "HOTWORX_PARENT"),
    ("ISI Elite Training", "ISI_ELITE_PARENT"),
    ("Morningstar Marinas Crown Harbor", "MORNINGSTAR_PARENT"),
    ("Yoga On Davidson", "YOGA_DAVIDSON_PARENT")]

  function Lookup(m: seq<(string, string)>, key: string): (r: Option<string>)
    ensures r.Some? ==> (key, r.value) in m
    ensures r.None? ==> forall k :: 0 <= k < |m| ==> m[k].0 != key
    decreases |m|
  {
    if m == [] then None else if m[0].0 == key then Some(m[0].1) else Lookup(m[1..], key)
  }

  /** The parent id of a group: its mapped id, else "REC_" and the name with every run of
      white space replaced by "_", upper-cased. */
  function ParentIdFor(name: string): string {
    match Lookup(PARENT_COMPANY_MAP, name)
    case Some(p) => p
    case None => "REC_" + Str.Upper(Str.ReplaceWs(name, "_"))
  }

  predicate NoLower(s: string) { forall i :: 0 <= i < |s| ==> !Str.IsLower(s[i]) }

  lemma RecreationHasLower(s: string)
    requires Str.Contains(s, "Recreation")
    ensures exists i :: 0 <= i < |s| && Str.IsLower(s[i])
  {
    var i := Str.ContainsWitness(s, "Recreation");
    assert s[i + 1] == s[i..i + 10][1] == 'e';
  }

  lemma NoLowerNoRecreation(s: string)
    ensures NoLower(s) ==> !Str.Contains(s, "Recreation")
  {
    if Str.Contains(s, "Recreation") {
      RecreationHasLower(s);
    }
  }

  /** The mapped parent ids have no lower-case letter; the literals are checked a few at
      a time. */
  lemma MappedNoLower()
    ensures forall k :: 0 <= k < |PARENT_COMPANY_MAP| ==> NoLower(PARENT_COMPANY_MAP[k].1)
  {
    MappedHeadNoLower();
    MappedMiddleNoLower();
    MappedTailNoLower();
  }

  lemma MappedHeadNoLower()
    ensures forall k :: 0 <= k < 4 ==> NoLower(PARENT_COMPANY_MAP[k].1)
  {
    assert NoLower("SAFE_HARBOR_PARENT");
    assert NoLower("ORANGETHEORY_PARENT");
    assert NoLower("ACTIVATE_PARENT");
    assert NoLower("ALL_SEASONS_PARENT");
  }

  lemma MappedMiddleNoLower()
    ensures forall k :: 4 <= k < 7 ==> NoLower(PARENT_COMPANY_MAP[k].1)
  {
    assert NoLower("BURN_BOOT_PARENT");
    assert NoLower("DAVIDSON_YOGA_PARENT");
    assert NoLower("HOTWORX_PARENT");
  }

  lemma MappedTailNoLower()
    ensures forall k :: 7 <= k < 10 ==> NoLower(PARENT_COMPANY_MAP[k].1)
  {
    assert NoLower("ISI_ELITE_PARENT");
    assert NoLower("MORNINGSTAR_PARENT");
    assert NoLower("YOGA_DAVIDSON_PARENT");
  }

  /** A generated parent id starts with "REC_" and has no white space or lower-case letter. */
  lemma GeneratedIdProps(name: string)
    ensures var r := "REC_" + Str.Upper(Str.ReplaceWs(name, "_"));
      Str.StartsWith(r, "REC_") && NoLower(r) && forall i :: 0 <= i < |r| ==> !Str.IsSpace(r[i])
  {
    var u := Str.Upper(Str.ReplaceWs(name, "_"));
    var r := "REC_" + u;
    assert r[..4] == "REC_";
    forall i | 0 <= i < |r| ensures !Str.IsSpace(r[i]) && !Str.IsLower(r[i]) {
      if i >= 4 { assert r[i] == u[i - 4]; }
    }
  }

  /** A parent id is the mapped one or a "REC_" id without white space; neither has a
      lower-case letter, so none contains "Recreation". */
  lemma ParentIdProps(name: string)
    ensures Lookup(PARENT_COMPANY_MAP, name).Some? ==> ParentIdFor(name) == Lookup(PARENT_COMPANY_MAP, name).value
    ensures Lookup(PARENT_COMPANY_MAP, name).None? ==>
      Str.StartsWith(ParentIdFor(name), "REC_")
      && forall i :: 0 <= i < |ParentIdFor(name)| ==> !Str.IsSpace(ParentIdFor(name)[i])
    ensures NoLower(ParentIdFor(name))
    ensures !Str.Contains(ParentIdFor(name), "Recreation")
  {
    var r := ParentIdFor(name);
    if Lookup(PARENT_COMPANY_MAP, name).None? {
      GeneratedIdProps(name);
    } else {
      MappedNoLower();
      var k :| 0 <= k < |PARENT_COMPANY_MAP| && PARENT_COMPANY_MAP[k] == (name, r);
    }
    NoLowerNoRecreation(r);
  }

  /** The repair of one business of a group with parent id `parentId`. */
  function Fixed(b: DemoBusiness, parentId: string, now: string): DemoBusiness {
    b.(industry := if IsCorruptIndustry(b.industry) then Some(ARTS) else b.industry,
       parentCompanyId := Some(parentId),
       dataFixNotes := b.dataFixNotes + [FixNote(now, "Corrected corrupted ID and industry field", CORRUPT_ID,
                                                 b.id, parentId, "ID assigned based on array position (1-294 sequence preserved)")])
  }

  // ---------------------------------------------------------------- the groups

  /** A business name with the array indices of its corrupted businesses. */
  type IndexGroup = (string, seq<nat>)

  /** `businessGroups[name].push(index)`, creating the group when the name is new. */
  function AddIndex(g: seq<IndexGroup>, name: string, i: nat): seq<IndexGroup>
    decreases |g|
  {
    if g == [] then [(name, [i])]
    else if g[0].0 == name then [(name, g[0].1 + [i])] + g[1..]
    else [g[0]] + AddIndex(g[1..], name, i)
  }

  /** The groups the first pass builds over the original array. */
  function GroupsOf(s: seq<DemoBusiness>): seq<IndexGroup>
    decreases |s|
  {
    if s == [] then []
    else
      var n := |s| - 1;
      if IsCorruptId(s[n].id) then AddIndex(GroupsOf(s[..n]), s[n].name, n) else GroupsOf(s[..n])
  }

  /** The indices of the corrupted businesses, in order. */
  function CorruptedIndices(s: seq<DemoBusiness>): (r: seq<nat>)
    ensures forall x :: x in r ==> x < |s| && IsCorruptId(s[x].id)
    ensures forall i :: 0 <= i < |s| && IsCorruptId(s[i].id) ==> i in r
    decreases |s|
  {
    if s == [] then []
    else
      var n := |s| - 1;
      var p := CorruptedIndices(s[..n]);
      assert forall x :: x in p ==> s[x] == s[..n][x];
      if IsCorruptId(s[n].id) then p + [n] else p
  }

  /** The names of the corrupted businesses, in order. */
  function CorruptedNames(s: seq<DemoBusiness>): seq<string>
    decreases |s|
  {
    if s == [] then []
    else
      var n := |s| - 1;
      CorruptedNames(s[..n]) + if IsCorruptId(s[n].id) then [s[n].name] else []
  }

  function GroupNames(g: seq<IndexGroup>): (r: seq<string>)
    ensures |r| == |g|
    ensures forall j :: 0 <= j < |g| ==> r[j] == g[j].0
  {
    seq(|g|, j requires 0 <= j < |g| => g[j].0)
  }

  /** All the indices of all the groups, group after group. */
  function Flat(g: seq<IndexGroup>): seq<nat>
    decreases |g|
  {
    if g == [] then [] else g[0].1 + Flat(g[1..])
  }

  /** Every index of a group points into s at a business of the group's name. */
  predicate Fits(g: seq<IndexGroup>, s: seq<DemoBusiness>) {
    forall j :: 0 <= j < |g| ==> GroupFits(g[j], s)
  }

  predicate GroupFits(group: IndexGroup, s: seq<DemoBusiness>) {
    forall x :: x in group.1 ==> x < |s| && s[x].name == group.0
  }

  lemma {:induction false} AddIndexNames(g: seq<IndexGroup>, name: string, i: nat)
    ensures GroupNames(AddIndex(g, name, i)) == if name in GroupNames(g) then GroupNames(g) else GroupNames(g) + [name]
    decreases |g|
  {
    if g != [] && g[0].0 != name {
      AddIndexNames(g[1..], name, i);
      assert GroupNames(g) == [g[0].0] + GroupNames(g[1..]);
      assert GroupNames(AddIndex(g, name, i)) == [g[0].0] + GroupNames(AddIndex(g[1..], name, i));
    } else if g != [] {
      assert GroupNames(AddIndex(g, name, i)) == GroupNames(g);
    }
  }

  lemma {:induction false} AddIndexFlat(g: seq<IndexGroup>, name: string, i: nat)
    ensures multiset(Flat(AddIndex(g, name, i))) == multiset(Flat(g)) + multiset{i}
    decreases |g|
  {
    if g == [] {
      assert Flat([(name, [i])]) == [i] + Flat([]);
    } else if g[0].0 == name {
      var r := AddIndex(g, name, i);
      assert r[1..] == g[1..];
      assert Flat(r) == (g[0].1 + [i]) + Flat(g[1..]);
    } else {
      var r := AddIndex(g, name, i);
      assert r[1..] == AddIndex(g[1..], name, i);
      AddIndexFlat(g[1..], name, i);
    }
  }

  lemma {:induction false} AddIndexFits(g: seq<IndexGroup>, name: string, i: nat, s: seq<DemoBusiness>)
    requires Fits(g, s) && i < |s| && s[i].name == name
    ensures Fits(AddIndex(g, name, i), s)
    decreases |g|
  {
    var r := AddIndex(g, name, i);
    if g == [] {
    } else if g[0].0 == name {
      assert GroupFits(g[0], s);
      assert GroupFits(r[0], s);
      assert forall j :: 1 <= j < |r| ==> r[j] == g[j];
    } else {
      assert Fits(g[1..], s) by {
        forall j | 0 <= j < |g| - 1 ensures GroupFits(g[1..][j], s) { assert g[1..][j] == g[j + 1]; }
      }
      AddIndexFits(g[1..], name, i, s);
      assert forall j :: 1 <= j < |r| ==> r[j] == AddIndex(g[1..], name, i)[j - 1];
    }
  }

  lemma FitsExtend(g: seq<IndexGroup>, s: seq<DemoBusiness>, t: seq<DemoBusiness>)
    requires Fits(g, s) && |s| <= |t| && forall x :: 0 <= x < |s| ==> t[x].name == s[x].name
    ensures Fits(g, t)
  {
    forall j | 0 <= j < |g| ensures GroupFits(g[j], t) {
      assert GroupFits(g[j], s);
    }
  }

  lemma DistinctSnoc(a: seq<nat>, x: nat)
    requires Tally.Distinct(a) && x !in a
    ensures Tally.Distinct(a + [x])
  {
    var b := a + [x];
    forall i, j | 0 <= i < j < |b| ensures b[i] != b[j] {
      if j < |a| { assert b[i] == a[i] && b[j] == a[j]; }
      else { assert b[i] == a[i]; }
    }
  }

  /** The groups' names are the corrupted businesses' distinct names in first-seen order. */
  lemma {:induction false} GroupsOfNames(s: seq<DemoBusiness>)
    ensures GroupNames(GroupsOf(s)) == Tally.FirstSeen(CorruptedNames(s))
    decreases |s|
  {
    if s != [] {
      var n := |s| - 1;
      GroupsOfNames(s[..n]);
      if IsCorruptId(s[n].id) {
        AddIndexNames(GroupsOf(s[..n]), s[n].name, n);
        assert CorruptedNames(s) == CorruptedNames(s[..n]) + [s[n].name];
      } else {
        assert GroupsOf(s) == GroupsOf(s[..n]);
        assert CorruptedNames(s) == CorruptedNames(s[..n]) + [];
        assert CorruptedNames(s) == CorruptedNames(s[..n]);
      }
    }
  }

  /** Every index of a group points at a business of the group's name. */
  lemma {:induction false} GroupsOfFits(s: seq<DemoBusiness>)
    ensures Fits(GroupsOf(s), s)
    decreases |s|
  {
    if s != [] {
      var n := |s| - 1;
      GroupsOfFits(s[..n]);
      FitsExtend(GroupsOf(s[..n]), s[..n], s);
      if IsCorruptId(s[n].id) {
        AddIndexFits(GroupsOf(s[..n]), s[n].name, n, s);
      }
    }
  }

  /** Adding a new index to duplicate-free groups keeps them duplicate-free and adds just
      that index. */
  lemma AddIndexDistinct(g: seq<IndexGroup>, name: string, n: nat)
    requires Tally.Distinct(Flat(g)) && n !in Flat(g)
    ensures Tally.Distinct(Flat(AddIndex(g, name, n)))
    ensures forall x :: x in Flat(AddIndex(g, name, n)) <==> x in Flat(g) || x == n
  {
    var h := Flat(AddIndex(g, name, n));
    AddIndexFlat(g, name, n);
    DistinctSnoc(Flat(g), n);
    assert multiset(Flat(g) + [n]) == multiset(Flat(g)) + multiset{n};
    Tally.DistinctMultiset(Flat(g) + [n], h);
    forall x ensures x in h <==> x in Flat(g) || x == n {
      assert x in h <==> x in multiset(h);
      assert x in Flat(g) <==> x in multiset(Flat(g));
    }
  }

  /** The groups' indices appear once each and are exactly the positions whose id is
      corrupted. */
  lemma {:induction false} GroupsOfIndices(s: seq<DemoBusiness>)
    ensures Tally.Distinct(Flat(GroupsOf(s)))
    ensures forall x :: x in Flat(GroupsOf(s)) <==> 0 <= x < |s| && IsCorruptId(s[x].id)
    decreases |s|
  {
    if s != [] {
      var n: nat := |s| - 1;
      var init := s[..n];
      GroupsOfIndices(init);
      assert forall x :: 0 <= x < n ==> s[x] == init[x];
      if IsCorruptId(s[n].id) {
        AddIndexDistinct(GroupsOf(init), s[n].name, n);
      }
    }
  }

  // ---------------------------------------------------------------- the two passes

  /** The first pass: the corruption test reads each original id before the id is replaced
      by the business's position. */
  method RenumberAndGroup(a: array<DemoBusiness>) returns (corrupted: seq<nat>, groups: seq<IndexGroup>)
    modifies a
    ensures forall i :: 0 <= i < a.Length ==> a[i] == old(a[i]).(id := PositionId(i))
    ensures corrupted == CorruptedIndices(old(a[..]))
    ensures groups == GroupsOf(old(a[..]))
  {
    ghost var s := a[..];
    corrupted, groups := [], [];
    var i := 0;
    while i < a.Length
      invariant 0 <= i <= a.Length
      invariant forall k :: 0 <= k < i ==> a[k] == s[k].(id := PositionId(k))
      invariant forall k :: i <= k < a.Length ==> a[k] == s[k]
      invariant corrupted == CorruptedIndices(s[..i]) && groups == GroupsOf(s[..i])
    {
      assert s[..i + 1][..i] == s[..i];
      var business := a[i];
      if IsCorruptId(business.id) {
        corrupted := corrupted + [i];
        groups := AddIndex(groups, business.name, i);
      }
      a[i] := business.(id := PositionId(i));
      i := i + 1;
    }
    assert s[..a.Length] == s;
  }

  /** In a duplicate-free a + (b + c), b is duplicate-free and shares nothing with a. */
  lemma DistinctParts(a: seq<nat>, b: seq<nat>, c: seq<nat>)
    requires Tally.Distinct(a + (b + c))
    ensures Tally.Distinct(b)
    ensures forall x :: x in b ==> x !in a
  {
    var t := a + (b + c);
    forall i, j | 0 <= i < j < |b| ensures b[i] != b[j] {
      assert t[|a| + i] == b[i] && t[|a| + j] == b[j];
    }
    forall x | x in b ensures x !in a {
      var j :| 0 <= j < |b| && b[j] == x;
      assert t[|a| + j] == x;
      forall k | 0 <= k < |a| ensures a[k] != x { assert t[k] == a[k]; }
    }
  }

  /** One group of the second pass: each of its businesses repaired once. */
  method RepairIndices(a: array<DemoBusiness>, indices: seq<nat>, parentId: string, now: string)
    modifies a
    requires Tally.Distinct(indices) && forall x :: x in indices ==> x < a.Length
    ensures forall j :: 0 <= j < a.Length ==>
      a[j] == if j in indices then Fixed(old(a[j]), parentId, now) else old(a[j])
  {
    var k := 0;
    while k < |indices|
      invariant 0 <= k <= |indices|
      invariant forall j :: 0 <= j < a.Length ==>
        a[j] == if j in indices[..k] then Fixed(old(a[j]), parentId, now) else old(a[j])
    {
      var idx := indices[k];
      assert idx in indices;
      assert idx !in indices[..k] by {
        forall m | 0 <= m < k ensures indices[m] != idx { }
      }
      assert indices[..k + 1] == indices[..k] + [idx];
      a[idx] := Fixed(a[idx], parentId, now);
      k := k + 1;
    }
    assert indices[..k] == indices;
  }

  /** Repaired once: the state of business j after the groups in `done` are repaired. */
  ghost predicate RepairedUpTo(a: seq<DemoBusiness>, orig: seq<DemoBusiness>, done: seq<nat>, now: string)
    requires |a| == |orig|
  {
    forall j :: 0 <= j < |a| ==>
      a[j] == if j in done then Fixed(orig[j], ParentIdFor(orig[j].name), now) else orig[j]
  }

  /** Repairing one group whose indices are not yet done extends the repaired set by them. */
  lemma RepairedStep(before: seq<DemoBusiness>, after: seq<DemoBusiness>, orig: seq<DemoBusiness>,
                     done: seq<nat>, group: IndexGroup, now: string)
    requires |before| == |orig| == |after| && RepairedUpTo(before, orig, done, now)
    requires GroupFits(group, orig) && forall x :: x in group.1 ==> x !in done
    requires forall j :: 0 <= j < |after| ==>
      after[j] == if j in group.1 then Fixed(before[j], ParentIdFor(group.0), now) else before[j]
    ensures RepairedUpTo(after, orig, done + group.1, now)
  {
    forall j | 0 <= j < |after|
      ensures after[j] == if j in done + group.1 then Fixed(orig[j], ParentIdFor(orig[j].name), now) else orig[j]
    {
      if j in group.1 { assert before[j] == orig[j]; }
    }
  }

  /** The second pass: every business of every group gets its group's parent id and note,
      and its industry restored; each index is visited once. */
  method RepairGroups(a: array<DemoBusiness>, groups: seq<IndexGroup>, now: string)
    modifies a
    requires Fits(groups, a[..]) && Tally.Distinct(Flat(groups))
    ensures forall j :: 0 <= j < a.Length ==>
      a[j] == if j in Flat(groups) then Fixed(old(a[j]), ParentIdFor(old(a[j]).name), now) else old(a[j])
  {
    ghost var orig := a[..];
    ghost var done: seq<nat> := [];
    var gi := 0;
    while gi < |groups|
      invariant 0 <= gi <= |groups|
      invariant Flat(groups) == done + Flat(groups[gi..])
      invariant RepairedUpTo(a[..], orig, done, now)
    {
      var name := groups[gi].0;
      var indices := groups[gi].1;
      assert groups[gi..][1..] == groups[gi + 1..];
      assert Flat(groups[gi..]) == indices + Flat(groups[gi + 1..]);
      DistinctParts(done, indices, Flat(groups[gi + 1..]));
      assert GroupFits(groups[gi], orig);
      ghost var before := a[..];
      RepairIndices(a, indices, ParentIdFor(name), now);
      RepairedStep(before, a[..], orig, done, (name, indices), now);
      Seqs.AppendAssoc(done, indices, Flat(groups[gi + 1..]));
      done := done + indices;
      gi := gi + 1;
    }
    assert groups[gi..] == [];
    assert done + [] == done;
  }

  /** The state of the array after the script. */
  function Corrected(s: seq<DemoBusiness>, now: string): (r: seq<DemoBusiness>)
    ensures |r| == |s|
  {
    seq(|s|, i requires 0 <= i < |s| =>
      var b := s[i].(id := PositionId(i));
      if IsCorruptId(s[i].id) then Fixed(b, ParentIdFor(s[i].name), now) else b)
  }

  /** The metadata `corrections` counters. */
  datatype Corrections = Corrections(totalFixed: nat, uniqueBusinesses: nat)

  /** The repair: both passes over the array, with the counters written to the metadata. */
  method FixIds(a: array<DemoBusiness>, now: string) returns (corrections: Corrections)
    modifies a
    ensures a[..] == Corrected(old(a[..]), now)
    ensures corrections.totalFixed == |CorruptedIndices(old(a[..]))|
    ensures corrections.uniqueBusinesses == |Tally.FirstSeen(CorruptedNames(old(a[..])))|
  {
    ghost var s := a[..];
    GroupsOfFits(s);
    GroupsOfIndices(s);
    GroupsOfNames(s);
    var corrupted, groups := RenumberAndGroup(a);
    FitsExtend(groups, s, a[..]);
    RepairGroups(a, groups, now);
    assert forall j :: 0 <= j < a.Length ==> a[j] == Corrected(s, now)[j];
    corrections := Corrections(|corrupted|, |groups|);
  }

  // ---------------------------------------------------------------- the verification

  /** An id still corrupted or missing. */
  predicate StillCorrupted(b: DemoBusiness) { IsCorruptId(b.id) || b.id == "" }

  /** A parent id that still carries the corrupted text. */
  predicate RecreationParent(p: Option<string>) {
    p.Some? && p.value != "" && Str.Contains(p.value, "Recreation")
  }

  /** `Math.max(...ids)`, with NaN (`None`) absorbing and the empty list as None. */
  function MaxId(ids: seq<Option<int>>): Option<int>
    decreases |ids|
  {
    if ids == [] then None
    else
      var last := ids[|ids| - 1];
      if |ids| == 1 then last
      else
        match (MaxId(ids[..|ids| - 1]), last)
        case (Some(m), Some(x)) => Some(if x > m then x else m)
        case _ => None
  }

  function MinId(ids: seq<Option<int>>): Option<int>
    decreases |ids|
  {
    if ids == [] then None
    else
      var last := ids[|ids| - 1];
      if |ids| == 1 then last
      else
        match (MinId(ids[..|ids| - 1]), last)
        case (Some(m), Some(x)) => Some(if x < m then x else m)
        case _ => None
  }

  function ParsedIds(s: seq<DemoBusiness>): (r: seq<Option<int>>)
    ensures |r| == |s|
    ensures forall i :: 0 <= i < |s| ==> r[i] == Str.ParseInt(s[i].id)
  {
    seq(|s|, i requires 0 <= i < |s| => Str.ParseInt(s[i].id))
  }

  /** The final check: no corrupted or missing id, no parent id with "Recreation", and the
      parsed ids cover 1..294 with 294 entries, maximum 294 and minimum 1. */
  predicate VerificationPasses(s: seq<DemoBusiness>) {
    var ids := ParsedIds(s);
    (forall i :: 0 <= i < |s| ==> !StillCorrupted(s[i]))
    && (forall i :: 0 <= i < |s| ==> !RecreationParent(s[i].parentCompanyId))
    && (forall n :: 1 <= n <= EXPECTED_COUNT ==> Some(n) in ids)
    && |ids| == EXPECTED_COUNT && MaxId(ids) == Some(EXPECTED_COUNT) && MinId(ids) == Some(1)
  }

  function Positions(n: nat): (r: seq<Option<int>>)
    ensures |r| == n
    ensures forall i :: 0 <= i < n ==> r[i] == Some(i + 1)
  {
    seq(n, i requires 0 <= i < n => Some(i + 1))
  }

  lemma {:induction false} PositionsRange(n: nat)
    requires n >= 1
    ensures MaxId(Positions(n)) == Some(n) && MinId(Positions(n)) == Some(1)
    decreases n
  {
    if n > 1 {
      assert Positions(n)[..n - 1] == Positions(n - 1);
      PositionsRange(n - 1);
    }
  }

  /** After the repair every id is the business's position, neither corrupted nor missing,
      and parses back to the position. */
  lemma CorrectedIds(s: seq<DemoBusiness>, now: string, i: nat)
    requires i < |s|
    ensures Corrected(s, now)[i].id == PositionId(i)
    ensures !StillCorrupted(Corrected(s, now)[i])
    ensures ParsedIds(Corrected(s, now))[i] == Some(i + 1)
  {
    Str.ParseIntNat(i + 1);
    var p := PositionId(i);
    assert Str.IsDigit(p[0]);
    assert CORRUPT_ID[0] == 'a' && ESCAPED_CORRUPT_ID[0] == 'a';
  }

  /** A repaired business's parent id never contains "Recreation"; the others keep theirs. */
  lemma CorrectedParent(s: seq<DemoBusiness>, now: string, i: nat)
    requires i < |s|
    ensures IsCorruptId(s[i].id) ==> !RecreationParent(Corrected(s, now)[i].parentCompanyId)
    ensures !IsCorruptId(s[i].id) ==> Corrected(s, now)[i].parentCompanyId == s[i].parentCompanyId
  {
    ParentIdProps(s[i].name);
  }

  /** After the repair the parsed ids are exactly the positions 1, 2, ..., and no id is
      corrupted or missing. */
  lemma CorrectedPositions(s: seq<DemoBusiness>, now: string)
    ensures ParsedIds(Corrected(s, now)) == Positions(|s|)
    ensures forall i :: 0 <= i < |s| ==> !StillCorrupted(Corrected(s, now)[i])
  {
    var c := Corrected(s, now);
    forall i | 0 <= i < |s| ensures !StillCorrupted(c[i]) && ParsedIds(c)[i] == Some(i + 1) {
      CorrectedIds(s, now, i);
    }
  }

  /** After the repair a parent id contains "Recreation" exactly where it did before at a
      business that was not repaired. */
  lemma CorrectedParents(s: seq<DemoBusiness>, now: string)
    ensures (forall i :: 0 <= i < |s| ==> !RecreationParent(Corrected(s, now)[i].parentCompanyId)) <==>
      forall i :: 0 <= i < |s| && !IsCorruptId(s[i].id) ==> !RecreationParent(s[i].parentCompanyId)
  {
    forall i | 0 <= i < |s|
      ensures IsCorruptId(s[i].id) ==> !RecreationParent(Corrected(s, now)[i].parentCompanyId)
      ensures !IsCorruptId(s[i].id) ==> Corrected(s, now)[i].parentCompanyId == s[i].parentCompanyId
    {
      CorrectedParent(s, now, i);
    }
  }

  /** The script's positions are the only ids left, so its own check passes exactly when the
      file holds 294 businesses and no business it did not repair has a parent id containing
      "Recreation". */
  lemma CorrectedVerifies(s: seq<DemoBusiness>, now: string)
    ensures VerificationPasses(Corrected(s, now)) <==>
      |s| == EXPECTED_COUNT
      && forall i :: 0 <= i < |s| && !IsCorruptId(s[i].id) ==> !RecreationParent(s[i].parentCompanyId)
  {
    var c := Corrected(s, now);
    CorrectedPositions(s, now);
    CorrectedParents(s, now);
    if |s| == EXPECTED_COUNT {
      PositionsRange(|s|);
      forall n | 1 <= n <= EXPECTED_COUNT ensures Some(n) in ParsedIds(c) {
        assert ParsedIds(c)[n - 1] == Some(n);
      }
    }
  }
}
