/** The `/api/analyze` endpoint: a system prompt chosen by analysis type and depth, the
    user prompt built from the data, the model settings the depth selects, and the
    structured insights pulled out of the model's answer. The OpenAI call is a
    parameter: its reply (or its failure) is given. */
module Analyze {
  import opened Wrappers
  import Str
  import Js

  // ---------------------------------------------------------------------------
  // Depth and model settings

  /** `depth = 'standard'` in the destructuring: only a missing (undefined) depth takes the
      default. */
  function DepthOf(body: Js.Value): (d: Js.Value)
    ensures Js.Get(body, "depth").Undefined? ==> d == Js.Text("standard")
    ensures !Js.Get(body, "depth").Undefined? ==> d == Js.Get(body, "depth")
  {
    var v := Js.Get(body, "depth");
    if v.Undefined? then Js.Text("standard") else v
  }

  predicate IsDeep(depth: Js.Value) { depth == Js.Text("deep") }

  /** What the request to the chat completion API carries. */
  datatype ChatRequest = ChatRequest(
    model: string, system: Option<string>, user: string,
    temperature: real, maxTokens: nat, presencePenalty: real, frequencyPenalty: real)

  function ModelFor(depth: Js.Value): string { if IsDeep(depth) then "gpt-5-pro" else "gpt-5" }
  function TemperatureFor(depth: Js.Value): real { if IsDeep(depth) then 0.3 else 0.5 }
  function MaxTokensFor(depth: Js.Value): nat { if IsDeep(depth) then 12000 else 6000 }

  /** A deep analysis runs on the larger model, cooler and with twice the token budget;
      every other depth, the default included, on the standard settings. */
  lemma SettingsProps(body: Js.Value)
    ensures var d := DepthOf(body);
      IsDeep(d) <==> (ModelFor(d) == "gpt-5-pro" && TemperatureFor(d) == 0.3 && MaxTokensFor(d) == 12000)
    ensures var d := DepthOf(body);
      !IsDeep(d) <==> (ModelFor(d) == "gpt-5" && TemperatureFor(d) == 0.5 && MaxTokensFor(d) == 6000)
    ensures Js.Get(body, "depth").Undefined? ==> ModelFor(DepthOf(body)) == "gpt-5" && MaxTokensFor(DepthOf(body)) == 6000
    ensures MaxTokensFor(DepthOf(body)) >= 6000 && TemperatureFor(DepthOf(body)) <= 0.5
  {
  }

  // ---------------------------------------------------------------------------
  // The system prompt

  /** A template string's `${v}`. */
  function Interpolate(v: Js.Value): string { Js.ToString(v) }

  const LEAD := "You are GPT-5, an advanced AI with superior reasoning and analytical capabilities. \n  Perform a "
  const CHARACTERISTICS := " analysis with the following characteristics:"
  const GAP := "\n    \n    "

  function BasePrompt(depth: Js.Value): string { LEAD + Interpolate(depth) + CHARACTERISTICS }

  /** `depthGuidelines[depth]`; a depth outside the table interpolates as "undefined". */
  function Guideline(depth: Js.Value): string {
    match depth
    case Text(s) =>
      if s == "quick" then "Provide key insights and immediate actionable recommendations."
      else if s == "standard" then "Deliver comprehensive analysis with supporting data and strategic recommendations."
      else if s == "deep" then
        "Conduct exhaustive analysis using advanced reasoning, identify hidden patterns, predict future trends, and provide detailed strategic roadmap."
      else "undefined"
    case _ => "undefined"
  }

  /** The analysis focus of one type: a heading and its bullet points. */
  datatype Focus = Focus(heading: string, points: seq<string>)

  datatype Kind = Code | BusinessData | Market | Competitive

  /** The key of `typePrompts` that `type` names, if any. */
  function KindOf(kind: Js.Value): Option<Kind> {
    match kind
    case Text(s) =>
      if s == "code" then Some(Code)
      else if s == "business" then Some(BusinessData)
      else if s == "market" then Some(Market)
      else if s == "competitive" then Some(Competitive)
      else None
    case _ => None
  }

  function FocusOf(k: Kind): Focus {
    match k
    case Code => Focus("Analyze the code for:", [
      "Architecture and design patterns", "Performance bottlenecks and optimization opportunities",
      "Security vulnerabilities and best practices", "Scalability considerations",
      "Technical debt and refactoring opportunities", "Integration points and API design"])
    case BusinessData => Focus("Analyze the business data for:", [
      "Revenue trends and growth patterns", "Operational efficiency metrics",
      "Market positioning and competitive advantages", "Risk factors and mitigation strategies",
      "Expansion opportunities", "Strategic partnerships and synergies"])
    case Market => Focus("Analyze the market for:", [
      "Industry trends and disruptions", "Market size and growth potential",
      "Customer segments and behavior patterns", "Competitive landscape dynamics",
      "Regulatory impacts and compliance", "Emerging opportunities and threats"])
    case Competitive => Focus("Perform competitive intelligence analysis:", [
      "Competitor strengths and weaknesses", "Market share and positioning",
      "Strategic moves and patterns", "Innovation and R&D focus",
      "Customer satisfaction and loyalty", "Potential competitive responses"])
  }

  /** The bullet lines, each on its own line indented as in the template. */
  function Bullets(points: seq<string>): string
    decreases |points|
  {
    if points == [] then "" else "\n    - " + points[0] + Bullets(points[1..])
  }

  lemma Prefix(a: string, b: string)
    ensures Str.StartsWith(a + b, a)
  {
    assert (a + b)[..|a|] == a;
  }

  lemma Suffix(a: string, b: string)
    ensures Str.EndsWith(a + b, b)
  {
    assert (a + b)[|a + b| - |b|..] == b;
  }

  /** What every prompt opens with: the base text and the depth's guideline. */
  function Head(depth: Js.Value): string {
    BasePrompt(depth) + " " + Guideline(depth) + GAP
  }

  /** `typePrompts[type]`: undefined for a type outside the table. */
  function AnalysisPrompt(kind: Js.Value, depth: Js.Value): (r: Option<string>)
    ensures r.Some? <==> KindOf(kind).Some?
    ensures r.Some? ==> Str.StartsWith(r.value, Head(depth))
  {
    if KindOf(kind).None? then None
    else
      var f := FocusOf(KindOf(kind).value);
      var h := Head(depth);
      Prefix(h, f.heading + Bullets(f.points));
      Some(h + (f.heading + Bullets(f.points)))
  }

  lemma Embeds(a: string, b: string, c: string)
    ensures Str.Contains(a + b + c, b)
  {
    assert (a + b + c)[|a|..|a| + |b|] == b;
    Str.ContainsAt(a + b + c, b, |a|);
  }

  lemma Layout(lead: string, i: string, after: string, g: string, gap: string, x: string)
    ensures var p := lead + i + after + " " + g + gap + x;
      Str.StartsWith(p, lead + i + after) && Str.Contains(p, i) && Str.Contains(p, g)
  {
    var p := lead + i + after + " " + g + gap + x;
    Prefix(lead + i + after, " " + g + gap + x);
    assert p == lead + i + (after + " " + g + gap + x);
    Embeds(lead, i, after + " " + g + gap + x);
    assert p == (lead + i + after + " ") + g + (gap + x);
    Embeds(lead + i + after + " ", g, gap + x);
  }

  /** A prompt opens with the base text, names the depth and carries the depth's
      guideline. */
  lemma AnalysisPromptProps(kind: Js.Value, depth: Js.Value)
    requires KindOf(kind).Some?
    ensures Str.StartsWith(AnalysisPrompt(kind, depth).value, BasePrompt(depth))
    ensures Str.Contains(AnalysisPrompt(kind, depth).value, Interpolate(depth))
    ensures Str.Contains(AnalysisPrompt(kind, depth).value, Guideline(depth))
  {
    var f := FocusOf(KindOf(kind).value);
    Layout(LEAD, Interpolate(depth), CHARACTERISTICS, Guideline(depth), GAP, f.heading + Bullets(f.points));
  }

  // ---------------------------------------------------------------------------
  // The user prompt

  /** `typeof data === 'object'`: null, arrays and objects. */
  predicate ObjectLike(v: Js.Value) { v.Null? || v.Arr? || v.Obj? }

  const INSTRUCTION := "\n\nProvide structured analysis with clear sections for findings, insights, and recommendations."

  function Opening(kind: Js.Value): string { "Analyze the following " + Interpolate(kind) + " data:\n\n" }

  /** `JSON.stringify(data, null, 2)` for an object-like value (its text, `json`, is given)
      and `data.toString()` otherwise, which throws on undefined. */
  function Payload(data: Js.Value, json: string): (r: Result<string>)
    ensures r.Err? <==> data.Undefined?
    ensures ObjectLike(data) ==> r == Ok(json)
    ensures !ObjectLike(data) && !data.Undefined? ==> r == Ok(Js.ToString(data))
  {
    if ObjectLike(data) then Ok(json)
    else if data.Undefined? then Err("TypeError")
    else Ok(Js.ToString(data))
  }

  function ContextSection(context: Js.Value): string {
    if Js.Truthy(context) then "\n\nAdditional Context:\n" + Interpolate(context) else ""
  }

  function FormatData(kind: Js.Value, data: Js.Value, json: string, context: Js.Value): (r: Result<string>)
    ensures r.Err? <==> data.Undefined?
  {
    match Payload(data, json)
    case Err(e) => Err(e)
    case Ok(p) => Ok(Opening(kind) + p + ContextSection(context) + INSTRUCTION)
  }

  lemma Framed(o: string, p: string, c: string, e: string)
    ensures Str.StartsWith(o + p + c + e, o + p)
    ensures Str.EndsWith(o + p + c + e, c + e)
    ensures Str.EndsWith(o + p + c + e, e)
  {
    Prefix(o + p, c + e);
    assert o + p + c + e == (o + p) + (c + e);
    Suffix(o + p, c + e);
    Suffix(o + p + c, e);
  }

  /** The user prompt opens with the type, carries the payload, adds the context section
      exactly when a truthy context is given, and always ends with the instruction. */
  lemma FormatDataProps(kind: Js.Value, data: Js.Value, json: string, context: Js.Value)
    requires !data.Undefined?
    ensures var r := FormatData(kind, data, json, context).value;
      Str.StartsWith(r, Opening(kind) + Payload(data, json).value)
      && Str.EndsWith(r, INSTRUCTION)
      && (Js.Truthy(context) ==> Str.EndsWith(r, "\n\nAdditional Context:\n" + Interpolate(context) + INSTRUCTION))
      && (!Js.Truthy(context) ==> r == Opening(kind) + Payload(data, json).value + INSTRUCTION)
  {
    Framed(Opening(kind), Payload(data, json).value, ContextSection(context), INSTRUCTION);
  }

  // ---------------------------------------------------------------------------
  // Splitting the answer into sections

  /** `split(/\n(?=[A-Z])/)` cuts at index j: a newline followed by an upper-case letter. */
  predicate IsBreak(s: string, j: int) {
    0 <= j && j + 1 < |s| && s[j] == '\n' && Str.IsUpper(s[j + 1])
  }

  predicate Unbroken(s: string) { forall j :: 0 <= j < |s| ==> !IsBreak(s, j) }

  function NextBreak(s: string, from: nat): (r: Option<nat>)
    ensures r.Some? ==> from <= r.value && IsBreak(s, r.value)
    ensures r.Some? ==> forall j :: from <= j < r.value ==> !IsBreak(s, j)
    ensures r.None? ==> forall j :: from <= j < |s| ==> !IsBreak(s, j)
    decreases |s| - from
  {
    if from + 1 >= |s| then None
    else if IsBreak(s, from) then Some(from)
    else NextBreak(s, from + 1)
  }

  /** The sections: the newline at each break is dropped and the upper-case letter starts
      the next section. */
  function Sections(s: string): (r: seq<string>)
    ensures |r| >= 1
    decreases |s|
  {
    match NextBreak(s, 0)
    case None => [s]
    case Some(i) => [s[..i]] + Sections(s[i + 1..])
  }

  lemma PrefixUnbroken(s: string, i: nat)
    requires i <= |s| && forall j :: 0 <= j < i ==> !IsBreak(s, j)
    ensures Unbroken(s[..i])
  {
    forall j | 0 <= j < i ensures !IsBreak(s[..i], j) {
      assert IsBreak(s[..i], j) ==> IsBreak(s, j);
    }
  }

  /** The first section of a text starting with an upper-case letter starts with it. */
  lemma {:induction false} FirstSectionUpper(s: string)
    requires |s| > 0 && Str.IsUpper(s[0])
    ensures |Sections(s)[0]| > 0 && Sections(s)[0][0] == s[0]
  {
    match NextBreak(s, 0)
    case None =>
    case Some(i) =>
      assert i != 0;
      assert Sections(s)[0] == s[..i];
  }

  /** Joining the sections with newlines gives back the text; no section holds a break;
      every section after the first starts with an upper-case letter. */
  lemma {:induction false} SectionsProps(s: string)
    ensures Str.Join(Sections(s), "\n") == s
    ensures forall k :: 0 <= k < |Sections(s)| ==> Unbroken(Sections(s)[k])
    ensures forall k :: 0 < k < |Sections(s)| ==> |Sections(s)[k]| > 0 && Str.IsUpper(Sections(s)[k][0])
    decreases |s|
  {
    match NextBreak(s, 0)
    case None =>
      PrefixUnbroken(s, |s|);
      assert s[..|s|] == s;
    case Some(i) =>
      var t := s[i + 1..];
      var rest := Sections(t);
      SectionsProps(t);
      PrefixUnbroken(s, i);
      FirstSectionUpper(t);
      assert Sections(s) == [s[..i]] + rest;
      Str.JoinCons(s[..i], rest, "\n");
      assert s == s[..i] + "\n" + t;
      forall k | 0 < k < |Sections(s)|
        ensures |Sections(s)[k]| > 0 && Str.IsUpper(Sections(s)[k][0])
      {
        assert Sections(s)[k] == rest[k - 1];
      }
      forall k | 0 <= k < |Sections(s)| ensures Unbroken(Sections(s)[k]) {
        if k > 0 {
          assert Sections(s)[k] == rest[k - 1];
        }
      }
  }

  /** A text without a break is one section. */
  lemma OneSection(s: string)
    requires Unbroken(s)
    ensures Sections(s) == [s]
  {
    var b := NextBreak(s, 0);
    assert b.Some? ==> IsBreak(s, b.value);
  }

  // ---------------------------------------------------------------------------
  // Insights

  predicate IsFinding(s: string) { Str.Contains(s, "Finding") || Str.Contains(s, "Key") }
  predicate IsRecommendation(s: string) { Str.Contains(s, "Recommend") }
  predicate IsRisk(s: string) { Str.Contains(s, "Risk") }
  predicate IsOpportunity(s: string) { Str.Contains(s, "Opportunit") }

  /** The trimmed sections among the first n that satisfy p, in order. */
  function Picked(secs: seq<string>, n: nat, p: string -> bool): seq<string>
    requires n <= |secs|
  {
    if n == 0 then []
    else Picked(secs, n - 1, p) + (if p(secs[n - 1]) then [Str.Trim(secs[n - 1])] else [])
  }

  /** The list holds the trimmed text of exactly the sections among the first n that p
      accepts. */
  ghost predicate Gathers(list: seq<string>, secs: seq<string>, n: nat, p: string -> bool)
    requires n <= |secs|
  {
    forall x :: x in list <==> exists i :: 0 <= i < n && p(secs[i]) && x == Str.Trim(secs[i])
  }

  /** A list holds the trimmed text of exactly the sections its test accepts, at most one
      entry per section. */
  lemma {:induction false} PickedProps(secs: seq<string>, n: nat, p: string -> bool)
    requires n <= |secs|
    ensures |Picked(secs, n, p)| <= n
    ensures Gathers(Picked(secs, n, p), secs, n, p)
  {
    if n > 0 {
      PickedProps(secs, n - 1, p);
    }
  }

  /** The case-sensitive priority rule: urgency words first, then words of low urgency. */
  function Priority(analysis: string): (r: string)
    ensures r == "high" <==> Str.Contains(analysis, "critical") || Str.Contains(analysis, "urgent")
    ensures r == "low" <==>
      !(Str.Contains(analysis, "critical") || Str.Contains(analysis, "urgent"))
      && (Str.Contains(analysis, "low priority") || Str.Contains(analysis, "minor"))
    ensures r in {"high", "low", "medium"}
  {
    if Str.Contains(analysis, "critical") || Str.Contains(analysis, "urgent") then "high"
    else if Str.Contains(analysis, "low priority") || Str.Contains(analysis, "minor") then "low"
    else "medium"
  }

  datatype Insights = Insights(
    keyFindings: seq<string>, recommendations: seq<string>, risks: seq<string>,
    opportunities: seq<string>, metrics: map<string, string>, priority: string)

  function InsightsOf(analysis: string): Insights {
    var secs := Sections(analysis);
    Insights(Picked(secs, |secs|, IsFinding), Picked(secs, |secs|, IsRecommendation),
      Picked(secs, |secs|, IsRisk), Picked(secs, |secs|, IsOpportunity), map[], Priority(analysis))
  }

  /** `extractInsights`: one pass over the sections pushing each into every list whose word
      it contains, then the priority. */
  method ExtractInsights(analysis: string) returns (ins: Insights)
    ensures ins == InsightsOf(analysis)
  {
    var secs := Sections(analysis);
    var findings, recommendations, risks, opportunities := [], [], [], [];
    for i := 0 to |secs|
      invariant findings == Picked(secs, i, IsFinding)
      invariant recommendations == Picked(secs, i, IsRecommendation)
      invariant risks == Picked(secs, i, IsRisk)
      invariant opportunities == Picked(secs, i, IsOpportunity)
    {
      var section := secs[i];
      var trimmed := Str.Trim(section);
      findings := findings + (if IsFinding(section) then [trimmed] else []);
      recommendations := recommendations + (if IsRecommendation(section) then [trimmed] else []);
      risks := risks + (if IsRisk(section) then [trimmed] else []);
      opportunities := opportunities + (if IsOpportunity(section) then [trimmed] else []);
    }
    var priority := "medium";
    if Str.Contains(analysis, "critical") || Str.Contains(analysis, "urgent") {
      priority := "high";
    } else if Str.Contains(analysis, "low priority") || Str.Contains(analysis, "minor") {
      priority := "low";
    }
    ins := Insights(findings, recommendations, risks, opportunities, map[], priority);
  }

  /** Each list holds exactly the trimmed sections that contain its word; metrics stay
      empty. */
  lemma InsightsProps(analysis: string)
    ensures var ins := InsightsOf(analysis); var secs := Sections(analysis);
      Gathers(ins.keyFindings, secs, |secs|, IsFinding)
      && Gathers(ins.recommendations, secs, |secs|, IsRecommendation)
      && Gathers(ins.risks, secs, |secs|, IsRisk)
      && Gathers(ins.opportunities, secs, |secs|, IsOpportunity)
      && |ins.keyFindings| <= |secs| && |ins.recommendations| <= |secs|
      && |ins.risks| <= |secs| && |ins.opportunities| <= |secs|
      && ins.metrics == map[]
  {
    var secs := Sections(analysis);
    PickedProps(secs, |secs|, IsFinding);
    PickedProps(secs, |secs|, IsRecommendation);
    PickedProps(secs, |secs|, IsRisk);
    PickedProps(secs, |secs|, IsOpportunity);
  }

  // ---------------------------------------------------------------------------
  // The handler

  /** What the chat completion call answered: `choices[0]?.message?.content`, the model
      that served it and the usage record. */
  datatype Completion = Completion(content: Option<string>, model: string, usage: Js.Value)

  datatype Metadata = Metadata(kind: Js.Value, depth: Js.Value, model: string, tokens: Js.Value)

  /** A failure's `details` is the thrown error's message; None stands for the message of a
      TypeError raised by the runtime. */
  datatype Body =
    | NoBody
    | Failure(error: string, details: Option<string>)
    | Report(analysis: string, insights: Insights, metadata: Metadata)

  datatype Response = Response(status: nat, body: Body)

  const FAILED := "Failed to perform analysis"

  /** The request `sent` to the model, if the handler got that far, and the response. The
      reply to that request is the parameter `reply`; `json` is `JSON.stringify(data, null,
      2)`. */
  method Handle(verb: string, body: Js.Value, json: string, reply: Result<Completion>)
    returns (resp: Response, sent: Option<ChatRequest>)
    ensures verb == "OPTIONS" ==> resp == Response(200, NoBody) && sent == None
    ensures verb != "OPTIONS" && verb != "POST" ==> resp == Response(405, Failure("Method not allowed", None)) && sent == None
    ensures verb == "POST" && (Js.IsNullish(body) || Js.Get(body, "data").Undefined?) ==>
      resp == Response(500, Failure(FAILED, None)) && sent == None
    ensures verb == "POST" && !Js.IsNullish(body) && !Js.Get(body, "data").Undefined? ==>
      var kind := Js.Get(body, "type");
      var depth := DepthOf(body);
      sent == Some(ChatRequest(ModelFor(depth), AnalysisPrompt(kind, depth),
        FormatData(kind, Js.Get(body, "data"), json, Js.Get(body, "context")).value,
        TemperatureFor(depth), MaxTokensFor(depth), 0.1, 0.1))
      && (reply.Err? ==> resp == Response(500, Failure(FAILED, Some(reply.msg))))
      && (reply.Ok? ==>
        var text := reply.value.content.GetOr("");
        resp == Response(200, Report(text, InsightsOf(text),
          Metadata(kind, depth, reply.value.model, reply.value.usage))))
  {
    sent := None;
    if verb == "OPTIONS" {
      return Response(200, NoBody), None;
    }
    if verb != "POST" {
      return Response(405, Failure("Method not allowed", None)), None;
    }
    if Js.IsNullish(body) {
      return Response(500, Failure(FAILED, None)), None;
    }
    var kind := Js.Get(body, "type");
    var depth := DepthOf(body);
    var system := AnalysisPrompt(kind, depth);
    var user := FormatData(kind, Js.Get(body, "data"), json, Js.Get(body, "context"));
    if user.Err? {
      return Response(500, Failure(FAILED, None)), None;
    }
    sent := Some(ChatRequest(ModelFor(depth), system, user.value, TemperatureFor(depth), MaxTokensFor(depth), 0.1, 0.1));
    if reply.Err? {
      return Response(500, Failure(FAILED, Some(reply.msg))), sent;
    }
    var text := reply.value.content.GetOr("");
    var insights := ExtractInsights(text);
    resp := Response(200, Report(text, insights, Metadata(kind, depth, reply.value.model, reply.value.usage)));
  }
}
