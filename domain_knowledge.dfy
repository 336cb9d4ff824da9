/** The Charlotte domain knowledge base and the two helpers built on it: the system prompt
    that wraps the knowledge around the caller's database context, and the industry
    notes picked by a loose name match. The knowledge texts themselves are a parameter. */
module DomainKnowledge {
  import opened Wrappers
  import Str

  /** `CHARLOTTE_BUSINESS_KNOWLEDGE`: the long prose sections, and the industry notes keyed
      by industry name in declaration order. */
  datatype Knowledge = Knowledge(
    ecosystem: string, industries: seq<(string, string)>, relationships: string,
    economicGuide: string, marketAnalysis: string, businessRecommendations: string,
    competitiveAnalysis: string)

  /** The keys of `INDUSTRY_INSIGHTS`, in declaration order. */
  const INDUSTRY_KEYS := ["Financial Services", "Technology", "Healthcare", "Manufacturing"]

  predicate Declared(kb: Knowledge) {
    |kb.industries| == |INDUSTRY_KEYS| && forall i :: 0 <= i < |INDUSTRY_KEYS| ==> kb.industries[i].0 == INDUSTRY_KEYS[i]
  }

  // ---------------------------------------------------------------------------
  // The system prompt

  const INTRO := "You are an expert AI assistant specializing in Charlotte, North Carolina's business ecosystem and economic development."
  const DATA_HEADING := "CURRENT DATA CONTEXT:\n"
  const STYLE := "RESPONSE STYLE:\n"
    + "• Be specific and data-driven when referencing actual Charlotte businesses\n"
    + "• Provide actionable insights based on local market conditions\n"
    + "• Consider Charlotte's unique advantages (banking hub, transportation, university partnerships)\n"
    + "• Acknowledge competitive landscape and regional positioning\n"
    + "• Use real numbers from the database when available\n"
    + "• Explain trends in context of Charlotte's economic development patterns"
  const CLOSING := "Always ground your responses in the provided data while leveraging this domain knowledge to provide intelligent analysis and recommendations."
  const SEP := "\n\n"

  /** The module-specific guidelines. */
  function Guidance(kb: Knowledge, moduleName: string): string {
    if moduleName == "business-intelligence" then kb.marketAnalysis + "\n" + kb.competitiveAnalysis
    else kb.businessRecommendations
  }

  /** The blocks of the template, in the order they appear; blank lines separate them. */
  function Parts(kb: Knowledge, moduleName: string, databaseContext: string): (r: seq<string>)
    ensures |r| == 8
  {
    [INTRO, kb.ecosystem, DATA_HEADING + databaseContext, kb.relationships, kb.economicGuide,
     STYLE, Guidance(kb, moduleName), CLOSING]
  }

  /** `generateDomainAwarePrompt`. */
  function DomainAwarePrompt(kb: Knowledge, moduleName: string, databaseContext: string): string {
    Str.Join(Parts(kb, moduleName, databaseContext), SEP)
  }

  /** Where the k-th part starts in the joined text. */
  function Offset(parts: seq<string>, sep: string, k: nat): nat
    requires k <= |parts|
  {
    if k == 0 then 0 else Offset(parts, sep, k - 1) + |parts[k - 1]| + |sep|
  }

  lemma {:induction false} OffsetTail(parts: seq<string>, sep: string, k: nat)
    requires 0 < k <= |parts|
    ensures Offset(parts, sep, k) == |parts[0]| + |sep| + Offset(parts[1..], sep, k - 1)
  {
    if k > 1 {
      OffsetTail(parts, sep, k - 1);
      assert parts[1..][k - 2] == parts[k - 1];
    }
  }

  lemma AtShift(x: string, y: string, t: string, i: nat)
    requires Str.At(y, t, i)
    ensures Str.At(x + y, t, |x| + i)
  {
    assert (x + y)[|x| + i..|x| + i + |t|] == y[i..i + |t|];
  }

  /** Each part appears whole in the joined text at its offset. */
  lemma {:induction false} JoinAt(parts: seq<string>, sep: string, k: nat)
    requires k < |parts|
    ensures Str.At(Str.Join(parts, sep), parts[k], Offset(parts, sep, k))
    decreases |parts|
  {
    var j := Str.Join(parts, sep);
    if k == 0 {
      if |parts| > 1 {
        assert j == parts[0] + (sep + Str.Join(parts[1..], sep));
        assert j[..|parts[0]|] == parts[0];
      }
    } else {
      var rest := parts[1..];
      JoinAt(rest, sep, k - 1);
      OffsetTail(parts, sep, k);
      assert rest[k - 1] == parts[k];
      AtShift(parts[0] + sep, Str.Join(rest, sep), parts[k], Offset(rest, sep, k - 1));
      assert j == parts[0] + sep + Str.Join(rest, sep);
    }
  }

  /** In a join, every part appears whole at its offset, and each starts after the
      previous one ends. */
  lemma JoinLayout(parts: seq<string>, sep: string)
    requires |sep| > 0
    ensures forall k :: 0 <= k < |parts| ==> Str.At(Str.Join(parts, sep), parts[k], Offset(parts, sep, k))
    ensures forall k :: 0 <= k < |parts| - 1 ==> Offset(parts, sep, k) + |parts[k]| < Offset(parts, sep, k + 1)
  {
    forall k | 0 <= k < |parts| ensures Str.At(Str.Join(parts, sep), parts[k], Offset(parts, sep, k)) {
      JoinAt(parts, sep, k);
    }
  }

  lemma PartContained(parts: seq<string>, sep: string, k: nat)
    requires k < |parts|
    ensures Str.Contains(Str.Join(parts, sep), parts[k])
  {
    JoinAt(parts, sep, k);
    Str.ContainsAt(Str.Join(parts, sep), parts[k], Offset(parts, sep, k));
  }

  /** The prompt holds every block whole, in the fixed order intro, ecosystem, data context,
      relationship patterns, economic guide, response style, module guidelines and closing,
      each starting after the previous one ends. */
  lemma DomainAwarePromptOrder(kb: Knowledge, moduleName: string, databaseContext: string)
    ensures var p := DomainAwarePrompt(kb, moduleName, databaseContext);
      var parts := Parts(kb, moduleName, databaseContext);
      (forall k :: 0 <= k < 8 ==> Str.At(p, parts[k], Offset(parts, SEP, k)))
      && (forall k :: 0 <= k < 7 ==> Offset(parts, SEP, k) + |parts[k]| < Offset(parts, SEP, k + 1))
  {
    JoinLayout(Parts(kb, moduleName, databaseContext), SEP);
  }

  /** The data context is embedded verbatim under its heading. */
  lemma DataContextEmbedded(kb: Knowledge, moduleName: string, databaseContext: string)
    ensures Str.Contains(DomainAwarePrompt(kb, moduleName, databaseContext), DATA_HEADING + databaseContext)
  {
    PartContained(Parts(kb, moduleName, databaseContext), SEP, 2);
  }

  /** Business intelligence gets the market and competitive guidelines, every other module
      the recommendation guidelines. */
  lemma GuidanceEmbedded(kb: Knowledge, moduleName: string, databaseContext: string)
    ensures moduleName == "business-intelligence" ==>
      Str.Contains(DomainAwarePrompt(kb, moduleName, databaseContext), kb.marketAnalysis + "\n" + kb.competitiveAnalysis)
    ensures moduleName != "business-intelligence" ==>
      Str.Contains(DomainAwarePrompt(kb, moduleName, databaseContext), kb.businessRecommendations)
  {
    PartContained(Parts(kb, moduleName, databaseContext), SEP, 6);
  }

  // ---------------------------------------------------------------------------
  // Industry notes

  /** `industry.toLowerCase().includes(key.toLowerCase())`. */
  predicate Covers(industry: string, key: string) {
    Str.Contains(Str.Lower(industry), Str.Lower(key))
  }

  /** `Object.keys(...).find(...)`: the first key, from index `from` on, that the industry
      covers. */
  function FirstCovered(table: seq<(string, string)>, industry: string, from: nat): (r: Option<nat>)
    ensures r.Some? ==> from <= r.value < |table| && Covers(industry, table[r.value].0)
    ensures r.Some? ==> forall j :: from <= j < r.value ==> !Covers(industry, table[j].0)
    ensures r.None? ==> forall j :: from <= j < |table| ==> !Covers(industry, table[j].0)
    decreases |table| - from
  {
    if from >= |table| then None
    else if Covers(industry, table[from].0) then Some(from)
    else FirstCovered(table, industry, from + 1)
  }

  /** `getIndustryContext`: the notes of the first covered key; "" when none is covered,
      and also when that key is the empty string, which JavaScript treats as not found. */
  function IndustryContext(kb: Knowledge, industry: string): string {
    match FirstCovered(kb.industries, industry, 0)
    case None => ""
    case Some(i) => if kb.industries[i].0 != "" then kb.industries[i].1 else ""
  }

  /** The notes returned belong to a key the industry covers, and every key declared before
      it is not covered; with no covered key the answer is "". */
  lemma IndustryContextProps(kb: Knowledge, industry: string)
    ensures (forall j :: 0 <= j < |kb.industries| ==> !Covers(industry, kb.industries[j].0)) ==>
      IndustryContext(kb, industry) == ""
    ensures IndustryContext(kb, industry) != "" ==>
      exists i :: 0 <= i < |kb.industries| && Covers(industry, kb.industries[i].0)
        && kb.industries[i].0 != "" && IndustryContext(kb, industry) == kb.industries[i].1
        && forall j :: 0 <= j < i ==> !Covers(industry, kb.industries[j].0)
  {
    match FirstCovered(kb.industries, industry, 0)
    case None =>
    case Some(i) =>
  }

  /** Every declared key is non-empty, so with the declared table a covered key always
      yields its notes. */
  lemma DeclaredFound(kb: Knowledge, industry: string, i: nat)
    requires Declared(kb) && i < |kb.industries| && Covers(industry, kb.industries[i].0)
    requires forall j :: 0 <= j < i ==> !Covers(industry, kb.industries[j].0)
    ensures IndustryContext(kb, industry) == kb.industries[i].1
  {
    var r := FirstCovered(kb.industries, industry, 0);
    assert r == Some(i);
    assert kb.industries[i].0 == INDUSTRY_KEYS[i];
  }
}
