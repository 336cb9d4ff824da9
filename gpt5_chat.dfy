/** The chat hook of the assistant pages: the keyword rule that sends a message to deep
    analysis, the analysis kind chosen from its wording, the rendering of an analysis
    reply and its follow-up questions, the welcome text, and the conversation state that
    `handleSendMessage` and its helpers update. Network replies, clocks and fresh session
    ids are parameters. */
module Gpt5Chat {
  import opened Wrappers
  import Str
  import Js
  import Analyze

  // ---------------------------------------------------------------------------
  // Deciding on deep analysis

  /** `analysisKeywords`. */
  const KEYWORDS := ["analyze", "analysis", "deep dive", "investigate", "examine", "assess",
    "evaluate", "compare", "predict"]

  /** Some keyword occurs in s. */
  function AnyKeyword(s: string, ks: seq<string>): (r: bool)
    ensures r <==> exists i :: 0 <= i < |ks| && Str.Contains(s, ks[i])
  {
    if ks == [] then false
    else Str.Contains(s, ks[0]) || AnyKeyword(s, ks[1..])
  }

  /** `checkIfNeedsAnalysis`. */
  function NeedsAnalysis(input: string): bool {
    AnyKeyword(Str.Lower(input), KEYWORDS)
  }

  /** A message goes to deep analysis exactly when its lower-cased text contains one of
      the nine keywords. */
  lemma NeedsAnalysisProps(input: string)
    ensures NeedsAnalysis(input) <==> exists i :: 0 <= i < 9 && Str.Contains(Str.Lower(input), KEYWORDS[i])
  {
  }

  /** `determineAnalysisType`: case-sensitive tests, in order. */
  function AnalysisTypeOf(input: string): Analyze.Kind {
    if Str.Contains(input, "code") || Str.Contains(input, "technical") then Analyze.Code
    else if Str.Contains(input, "market") then Analyze.Market
    else if Str.Contains(input, "compet") then Analyze.Competitive
    else Analyze.BusinessData
  }

  /** The wire name of each kind. */
  function KindName(k: Analyze.Kind): string {
    match k
    case Code => "code"
    case BusinessData => "business"
    case Market => "market"
    case Competitive => "competitive"
  }

  /** The kind is decided by the first test that holds: code words, then "market", then
      "compet", and business otherwise. */
  lemma AnalysisTypeProps(input: string)
    ensures AnalysisTypeOf(input) == Analyze.Code <==>
      Str.Contains(input, "code") || Str.Contains(input, "technical")
    ensures AnalysisTypeOf(input) == Analyze.Market <==>
      !Str.Contains(input, "code") && !Str.Contains(input, "technical") && Str.Contains(input, "market")
    ensures AnalysisTypeOf(input) == Analyze.Competitive <==>
      !Str.Contains(input, "code") && !Str.Contains(input, "technical") && !Str.Contains(input, "market")
      && Str.Contains(input, "compet")
    ensures AnalysisTypeOf(input) == Analyze.BusinessData <==>
      !Str.Contains(input, "code") && !Str.Contains(input, "technical") && !Str.Contains(input, "market")
      && !Str.Contains(input, "compet")
  {
  }

  /** The kind the hook sends is one the analysis endpoint accepts, and it reads back as
      the same kind. */
  lemma KindAccepted(input: string)
    ensures Analyze.KindOf(Js.Text(KindName(AnalysisTypeOf(input)))) == Some(AnalysisTypeOf(input))
  {
  }

  // ---------------------------------------------------------------------------
  // Rendering an analysis reply

  /** `AnalysisResponse`, without the metadata the hook does not read. */
  datatype AnalysisResult = AnalysisResult(analysis: string, insights: Analyze.Insights)

  const HEADING := "## 📊 Deep Analysis Results\n\n"
  const FINDINGS := "### 🔍 Key Findings\n"
  const RECOMMENDATIONS := "\n### 💡 Recommendations\n"
  const HIGH_LINE := "\n⚠️ **Priority: HIGH** - Immediate action recommended"

  function Header(analysis: string): string {
    HEADING + analysis + "\n\n"
  }

  function Bullet(item: string): string {
    "• " + item + "\n"
  }

  /** The bullets of the first n items. */
  function Bullets(items: seq<string>, n: nat): string
    requires n <= |items|
  {
    if n == 0 then "" else Bullets(items, n - 1) + Bullet(items[n - 1])
  }

  function Section(heading: string, items: seq<string>): string {
    if |items| > 0 then heading + Bullets(items, |items|) else ""
  }

  /** `formatAnalysisResponse`. */
  function Formatted(a: AnalysisResult): string {
    Header(a.analysis) + Section(FINDINGS, a.insights.keyFindings)
      + Section(RECOMMENDATIONS, a.insights.recommendations)
      + (if a.insights.priority == "high" then HIGH_LINE else "")
  }

  /** The `forEach` of `formatAnalysisResponse`: one bullet per item is appended. */
  method AppendBullets(start: string, items: seq<string>) returns (formatted: string)
    ensures formatted == start + Bullets(items, |items|)
  {
    formatted := start;
    for i := 0 to |items|
      invariant formatted == start + Bullets(items, i)
    {
      assert start + Bullets(items, i + 1) == (start + Bullets(items, i)) + Bullet(items[i]);
      formatted := formatted + Bullet(items[i]);
    }
  }

  /** `formatAnalysisResponse`: the text grows with `+=`. */
  method FormatAnalysisResponse(a: AnalysisResult) returns (formatted: string)
    ensures formatted == Formatted(a)
  {
    var ins := a.insights;
    formatted := Header(a.analysis);
    if |ins.keyFindings| > 0 {
      formatted := AppendBullets(formatted + FINDINGS, ins.keyFindings);
    }
    ghost var findings := formatted;
    assert findings == Header(a.analysis) + Section(FINDINGS, ins.keyFindings);
    if |ins.recommendations| > 0 {
      formatted := AppendBullets(formatted + RECOMMENDATIONS, ins.recommendations);
    }
    assert formatted == findings + Section(RECOMMENDATIONS, ins.recommendations);
    if ins.priority == "high" {
      formatted := formatted + HIGH_LINE;
    }
  }

  lemma ContainsAppend(s: string, x: string, t: string)
    requires Str.Contains(s, t)
    ensures Str.Contains(s + x, t)
  {
    var i := Str.ContainsWitness(s, t);
    assert (s + x)[i..i + |t|] == s[i..i + |t|];
    Str.ContainsAt(s + x, t, i);
  }

  /** Every item of the list is rendered as a bullet. */
  lemma {:induction false} BulletListed(items: seq<string>, n: nat, i: nat)
    requires i < n <= |items|
    ensures Str.Contains(Bullets(items, n), Bullet(items[i]))
  {
    var prev := Bullets(items, n - 1);
    if i == n - 1 {
      assert Bullets(items, n)[|prev|..|prev| + |Bullet(items[i])|] == Bullet(items[i]);
      Str.ContainsAt(Bullets(items, n), Bullet(items[i]), |prev|);
    } else {
      BulletListed(items, n - 1, i);
      ContainsAppend(prev, Bullet(items[n - 1]), Bullet(items[i]));
    }
  }

  /** A non-empty bullet list ends with a line break. */
  lemma BulletsEnd(items: seq<string>, n: nat)
    requires 0 < n <= |items|
    ensures var b := Bullets(items, n); |b| > 0 && b[|b| - 1] == '\n'
  {
    var b := Bullets(items, n);
    assert b == Bullets(items, n - 1) + ("• " + items[n - 1] + "\n");
  }

  lemma HeaderEnd(analysis: string)
    ensures var h := Header(analysis); |h| > 0 && h[|h| - 1] == '\n'
  {
  }

  /** Text ending in a line break does not end with the priority line. */
  lemma NotHighEnd(s: string)
    requires |s| > 0 && s[|s| - 1] == '\n'
    ensures !Str.EndsWith(s, HIGH_LINE)
  {
    assert HIGH_LINE[|HIGH_LINE| - 1] == 'd';
  }

  /** The layout facts of a text made of four parts. */
  lemma Parts4(h: string, f: string, c: string, p: string)
    ensures Str.StartsWith(h + f + c + p, h) && Str.StartsWith(h + f + c + p, h + f)
    ensures f == "" ==> Str.StartsWith(h + f + c + p, h + c)
    ensures Str.EndsWith(h + f + c + p, p)
  {
    assert (h + f + c + p)[..|h|] == h;
    assert (h + f + c + p)[..|h + f|] == h + f;
    assert (h + f + c + p)[|h + f + c + p| - |p|..] == p;
  }

  /** Text ending in a line break still does after parts that are empty or end in one. */
  lemma EndsNewline(h: string, f: string, c: string)
    requires |h| > 0 && h[|h| - 1] == '\n'
    requires f == "" || f[|f| - 1] == '\n'
    requires c == "" || c[|c| - 1] == '\n'
    ensures var s := h + f + c; |s| > 0 && s[|s| - 1] == '\n'
  {
  }

  /** A section is empty or ends in a line break. */
  lemma SectionEnd(heading: string, items: seq<string>)
    ensures var s := Section(heading, items); s == "" || s[|s| - 1] == '\n'
  {
    if |items| > 0 {
      BulletsEnd(items, |items|);
    }
  }

  /** The rendered reply opens with the heading and the analysis, lists the findings right
      after it when there are some, and the recommendations directly after it when there
      are no findings. */
  lemma FormattedStart(a: AnalysisResult)
    ensures var r := Formatted(a); var ins := a.insights;
      Str.StartsWith(r, Header(a.analysis))
      && (|ins.keyFindings| > 0 ==>
            Str.StartsWith(r, Header(a.analysis) + (FINDINGS + Bullets(ins.keyFindings, |ins.keyFindings|))))
      && (|ins.keyFindings| == 0 && |ins.recommendations| > 0 ==>
            Str.StartsWith(r, Header(a.analysis) + (RECOMMENDATIONS + Bullets(ins.recommendations, |ins.recommendations|))))
  {
    var ins := a.insights;
    Parts4(Header(a.analysis), Section(FINDINGS, ins.keyFindings), Section(RECOMMENDATIONS, ins.recommendations),
      if ins.priority == "high" then HIGH_LINE else "");
  }

  /** The reply ends with the HIGH-priority line exactly when the priority is "high". */
  lemma FormattedHigh(a: AnalysisResult)
    ensures a.insights.priority == "high" <==> Str.EndsWith(Formatted(a), HIGH_LINE)
  {
    var ins := a.insights;
    var h := Header(a.analysis);
    var f := Section(FINDINGS, ins.keyFindings);
    var c := Section(RECOMMENDATIONS, ins.recommendations);
    var p := if ins.priority == "high" then HIGH_LINE else "";
    Parts4(h, f, c, p);
    if ins.priority != "high" {
      HeaderEnd(a.analysis);
      SectionEnd(FINDINGS, ins.keyFindings);
      SectionEnd(RECOMMENDATIONS, ins.recommendations);
      EndsNewline(h, f, c);
      assert Formatted(a) == h + f + c;
      NotHighEnd(h + f + c);
    }
  }

  /** With nothing to list and no high priority the reply is the header alone. */
  lemma FormattedBare(a: AnalysisResult)
    requires |a.insights.keyFindings| == 0 && |a.insights.recommendations| == 0 && a.insights.priority != "high"
    ensures Formatted(a) == Header(a.analysis)
  {
  }

  /** Every finding is shown as a bullet. */
  lemma FindingsListed(a: AnalysisResult, i: nat)
    requires i < |a.insights.keyFindings|
    ensures Str.Contains(Formatted(a), Bullet(a.insights.keyFindings[i]))
  {
    var ins := a.insights;
    var items := ins.keyFindings;
    var c := Section(RECOMMENDATIONS, ins.recommendations);
    var p := if ins.priority == "high" then HIGH_LINE else "";
    BulletListed(items, |items|, i);
    var j := Str.ContainsWitness(Bullets(items, |items|), Bullet(items[i]));
    assert Formatted(a) == (Header(a.analysis) + FINDINGS) + Bullets(items, |items|) + (c + p);
    Embedded(Header(a.analysis) + FINDINGS, Bullets(items, |items|), c + p, Bullet(items[i]), j);
  }

  /** Every recommendation is shown as a bullet. */
  lemma RecommendationsListed(a: AnalysisResult, i: nat)
    requires i < |a.insights.recommendations|
    ensures Str.Contains(Formatted(a), Bullet(a.insights.recommendations[i]))
  {
    var ins := a.insights;
    var items := ins.recommendations;
    var f := Section(FINDINGS, ins.keyFindings);
    var p := if ins.priority == "high" then HIGH_LINE else "";
    BulletListed(items, |items|, i);
    var j := Str.ContainsWitness(Bullets(items, |items|), Bullet(items[i]));
    assert Formatted(a) == (Header(a.analysis) + f + RECOMMENDATIONS) + Bullets(items, |items|) + p;
    Embedded(Header(a.analysis) + f + RECOMMENDATIONS, Bullets(items, |items|), p, Bullet(items[i]), j);
  }

  /** What occurs in the middle part occurs in the whole. */
  lemma Embedded(x: string, y: string, z: string, t: string, j: nat)
    requires Str.At(y, t, j)
    ensures Str.Contains(x + y + z, t)
  {
    assert (x + y + z)[|x| + j..|x| + j + |t|] == y[j..j + |t|];
    Str.ContainsAt(x + y + z, t, |x| + j);
  }

  // ---------------------------------------------------------------------------
  // Follow-up questions

  const DETAIL_QUESTION := "Can you provide a more detailed implementation plan?"
  const METRICS_QUESTION := "What are the success metrics for this strategy?"

  function OpportunityQuestion(o: string): string { "Tell me more about the opportunity: " + o }
  function RiskQuestion(r: string): string { "How can we mitigate the risk: " + r }

  /** The questions pushed before the slice. */
  function Candidates(ins: Analyze.Insights): seq<string> {
    (if |ins.opportunities| > 0 then [OpportunityQuestion(ins.opportunities[0])] else [])
      + (if |ins.risks| > 0 then [RiskQuestion(ins.risks[0])] else [])
      + [DETAIL_QUESTION, METRICS_QUESTION]
  }

  /** `questions.slice(0, 3)`. */
  function FollowUps(ins: Analyze.Insights): seq<string> {
    var c := Candidates(ins);
    if |c| <= 3 then c else c[..3]
  }

  /** `generateFollowUpQuestions`: pushes, then the slice. */
  method FollowUpQuestions(a: AnalysisResult) returns (questions: seq<string>)
    ensures questions == FollowUps(a.insights)
  {
    var ins := a.insights;
    var pushed: seq<string> := [];
    pushed := pushed + (if |ins.opportunities| > 0 then [OpportunityQuestion(ins.opportunities[0])] else []);
    pushed := pushed + (if |ins.risks| > 0 then [RiskQuestion(ins.risks[0])] else []);
    pushed := pushed + [DETAIL_QUESTION];
    pushed := pushed + [METRICS_QUESTION];
    questions := if |pushed| <= 3 then pushed else pushed[..3];
  }

  /** At most three questions: the opportunity question when there is an opportunity, the
      risk question when there is a risk, then the fixed questions in order, cut at three. */
  lemma FollowUpsProps(ins: Analyze.Insights)
    ensures |FollowUps(ins)| <= 3
    ensures |ins.opportunities| > 0 && |ins.risks| > 0 ==>
      FollowUps(ins) == [OpportunityQuestion(ins.opportunities[0]), RiskQuestion(ins.risks[0]), DETAIL_QUESTION]
    ensures |ins.opportunities| > 0 && |ins.risks| == 0 ==>
      FollowUps(ins) == [OpportunityQuestion(ins.opportunities[0]), DETAIL_QUESTION, METRICS_QUESTION]
    ensures |ins.opportunities| == 0 && |ins.risks| > 0 ==>
      FollowUps(ins) == [RiskQuestion(ins.risks[0]), DETAIL_QUESTION, METRICS_QUESTION]
    ensures |ins.opportunities| == 0 && |ins.risks| == 0 ==>
      FollowUps(ins) == [DETAIL_QUESTION, METRICS_QUESTION]
  {
  }

  // ---------------------------------------------------------------------------
  // Welcome text and suggested questions

  const BI := "business-intelligence"
  const I_AM := "I'm "
  const I_CAN := "I can "
  const GPT5_FEATURES := I_AM + "powered by GPT-5 with advanced reasoning, extended context memory, and deep analytical capabilities. "
  const BI_HEAD := "👋 Welcome to Business Intelligence AI!\n\n"
  const BI_OFFER := I_CAN + "provide cutting-edge analysis including:\n      \n"
  const BI_TAIL := BI_OFFER
    + "• **Deep Market Analysis** - Comprehensive industry trends and predictions\n"
    + "• **Competitive Intelligence** - Advanced competitor analysis and positioning\n"
    + "• **Revenue Optimization** - Data-driven growth strategies\n"
    + "• **Risk Assessment** - Proactive risk identification and mitigation\n"
    + "• **Strategic Planning** - Long-term business roadmaps with GPT-5's reasoning\n\n"
    + "What business challenge would you like to explore today?"
  const CP_HEAD := "👋 Welcome to Community Pulse AI!\n\n"
  const CP_OFFER := I_CAN + "analyze:\n      \n"
  const CP_TAIL := CP_OFFER
    + "• **Community Dynamics** - Complex social and economic patterns\n"
    + "• **Economic Impact** - Multi-factor impact analysis\n"
    + "• **Network Effects** - Business ecosystem relationships\n"
    + "• **Sentiment Analysis** - Deep understanding of community needs\n"
    + "• **Trend Prediction** - Future community development patterns\n\n"
    + "How can I help you understand Charlotte's business community?"

  function Features(model: string): string {
    if Str.Contains(model, "gpt-5") then GPT5_FEATURES else ""
  }

  function WelcomeHead(moduleName: string): string { if moduleName == BI then BI_HEAD else CP_HEAD }
  function WelcomeTail(moduleName: string): string { if moduleName == BI then BI_TAIL else CP_TAIL }

  /** `getWelcomeMessage`. */
  function WelcomeMessage(moduleName: string, model: string): string {
    WelcomeHead(moduleName) + Features(model) + WelcomeTail(moduleName)
  }

  /** Two texts that differ at position k after a common head do not extend each other. */
  lemma Diverge(h: string, f: string, t: string, k: nat)
    requires k < |f| && k < |t| && f[k] != t[k]
    ensures !Str.StartsWith(h + t, h + f)
  {
    assert (h + t)[|h| + k] == t[k];
    assert (h + f)[|h| + k] == f[k];
  }

  /** Neither closing text begins like the feature sentence. */
  lemma TailsDiffer()
    ensures |GPT5_FEATURES| > 1 && |BI_TAIL| > 1 && |CP_TAIL| > 1
    ensures GPT5_FEATURES[1] != BI_TAIL[1] && GPT5_FEATURES[1] != CP_TAIL[1]
  {
    assert GPT5_FEATURES[1] == I_AM[1] == '\'';
    assert BI_TAIL[1] == BI_OFFER[1] == I_CAN[1] == ' ';
    assert CP_TAIL[1] == CP_OFFER[1] == I_CAN[1];
  }

  /** The facts about a welcome text, whatever its three parts. */
  lemma WelcomeLayout(h: string, f: string, t: string)
    ensures Str.StartsWith(h + f + t, h) && Str.StartsWith(h + f + t, h + f) && Str.EndsWith(h + f + t, t)
  {
    assert (h + f + t)[..|h|] == h;
    assert (h + f + t)[..|h + f|] == h + f;
    assert (h + f + t)[|h + f + t| - |t|..] == t;
  }

  /** The feature sentence follows the greeting exactly when the model name contains
      "gpt-5". */
  lemma WelcomeProps(moduleName: string, model: string)
    ensures Str.StartsWith(WelcomeMessage(moduleName, model), WelcomeHead(moduleName) + GPT5_FEATURES)
      <==> Str.Contains(model, "gpt-5")
    ensures Str.StartsWith(WelcomeMessage(moduleName, model), WelcomeHead(moduleName))
    ensures Str.EndsWith(WelcomeMessage(moduleName, model), WelcomeTail(moduleName))
  {
    var h := WelcomeHead(moduleName);
    var t := WelcomeTail(moduleName);
    WelcomeLayout(h, Features(model), t);
    if !Str.Contains(model, "gpt-5") {
      TailsDiffer();
      assert WelcomeMessage(moduleName, model) == h + t;
      Diverge(h, GPT5_FEATURES, t, 1);
    }
  }

  const BI_QUESTIONS := [
    "Perform a deep analysis of Charlotte's tech industry growth potential",
    "What are the hidden opportunities in our market data?",
    "Compare our business model with top competitors using advanced metrics",
    "Predict revenue trends for the next 12 months with confidence intervals",
    "Identify strategic partnerships that could accelerate growth"]
  const CP_QUESTIONS := [
    "Analyze the economic ripple effects of new business development",
    "What are the emerging community needs not being addressed?",
    "Map the business network connections in Charlotte",
    "Predict community response to proposed economic changes",
    "Identify underserved market segments in local communities"]

  /** `getSuggestedQuestions`. */
  function SuggestedQuestions(moduleName: string): (r: seq<string>)
    ensures |r| == 5
  {
    if moduleName == BI then BI_QUESTIONS else CP_QUESTIONS
  }

  // ---------------------------------------------------------------------------
  // The conversation

  datatype Role = User | Assistant | System

  /** `Message`; the timestamp is a clock reading and absent suggestions are None. */
  datatype Message = Message(id: string, role: Role, content: string, timestamp: int,
    suggestions: Option<seq<string>>, analysis: Option<AnalysisResult>)

  /** `performDeepAnalysis`'s request. */
  datatype AnalysisRequest = AnalysisRequest(kind: Analyze.Kind, data: string, depth: string, context: string)

  /** What a send leads to: nothing, a deep analysis, or a chat turn (streamed or not). */
  datatype Plan = Ignored | Analysis(request: AnalysisRequest) | Chat(streaming: bool)

  function Welcome(moduleName: string, model: string, now: int): Message {
    Message("welcome", Assistant, WelcomeMessage(moduleName, model), now, Some(SuggestedQuestions(moduleName)), None)
  }

  function PlanFor(text: string, streaming: bool, summary: string): Plan {
    if NeedsAnalysis(text) then Analysis(AnalysisRequest(AnalysisTypeOf(text), text, "deep", summary))
    else Chat(streaming)
  }

  const ERROR_LEAD := "❌ I encountered an error: "
  const SUMMARY_LEAD := "📝 **Conversation Summary:**\n\n"
  const ERROR_TAIL := ". Please try again or rephrase your question."

  /** `error.message || "Unknown error occurred"`. */
  function ErrorText(message: Option<string>): string {
    if Js.Filled(message) then message.value else "Unknown error occurred"
  }

  class ChatSession {
    const moduleName: string
    const model: string
    const enableStreaming: bool
    var messages: seq<Message>
    var input: string
    var isLoading: bool
    var sessionId: string
    var conversationSummary: string

    /** The hook's first render and `initializeSession`: the restored context, if any,
        followed by the welcome message. */
    constructor(moduleName: string, model: string, enableStreaming: bool, sessionId: string,
      restored: seq<Message>, summary: string, now: int)
      ensures this.moduleName == moduleName && this.model == model && this.enableStreaming == enableStreaming
      ensures messages == restored + [Welcome(moduleName, model, now)]
      ensures input == "" && !isLoading && this.sessionId == sessionId && conversationSummary == summary
    {
      this.moduleName := moduleName;
      this.model := model;
      this.enableStreaming := enableStreaming;
      this.sessionId := sessionId;
      messages := restored + [Welcome(moduleName, model, now)];
      input := "";
      isLoading := false;
      conversationSummary := summary;
    }

    /** `setInput`. */
    method SetInput(s: string)
      modifies this
      ensures input == s
      ensures messages == old(messages) && isLoading == old(isLoading)
      ensures sessionId == old(sessionId) && conversationSummary == old(conversationSummary)
    {
      input := s;
    }

    /** The synchronous part of `handleSendMessage`: a blank input or a request still
        loading is ignored; otherwise the trimmed text is added as the user's message, the
        input is cleared, loading starts, and the keyword rule picks deep analysis or a chat
        turn. */
    method Send(now: int) returns (plan: Plan)
      modifies this
      ensures Str.Trim(old(input)) == "" || old(isLoading) ==>
        plan == Ignored && messages == old(messages) && input == old(input) && isLoading == old(isLoading)
      ensures !(Str.Trim(old(input)) == "" || old(isLoading)) ==>
        var text := Str.Trim(old(input));
        messages == old(messages) + [Message(Str.IntToString(now), User, text, now, None, None)]
        && input == "" && isLoading && plan == PlanFor(text, enableStreaming, old(conversationSummary))
      ensures sessionId == old(sessionId) && conversationSummary == old(conversationSummary)
    {
      var text := Str.Trim(input);
      if text == "" || isLoading {
        return Ignored;
      }
      messages := messages + [Message(Str.IntToString(now), User, text, now, None, None)];
      input := "";
      isLoading := true;
      if NeedsAnalysis(text) {
        plan := Analysis(AnalysisRequest(AnalysisTypeOf(text), text, "deep", conversationSummary));
      } else {
        plan := Chat(enableStreaming);
      }
    }

    /** The analysis branch once the reply is in: the rendered reply with its follow-up
        questions. */
    method ReceiveAnalysis(result: AnalysisResult, now: int)
      modifies this
      ensures messages == old(messages) + [Message(Str.IntToString(now + 1), Assistant, Formatted(result), now,
        Some(FollowUps(result.insights)), Some(result))]
      ensures input == old(input) && isLoading == old(isLoading)
      ensures sessionId == old(sessionId) && conversationSummary == old(conversationSummary)
    {
      var content := FormatAnalysisResponse(result);
      var questions := FollowUpQuestions(result);
      messages := messages + [Message(Str.IntToString(now + 1), Assistant, content, now, Some(questions), Some(result))];
    }

    /** `handleRegularChat` once the reply is in; `withSuggestions` stands for the coin
        flip that attaches the first three suggested questions, and a non-empty session id
        in the reply replaces the current one. */
    method ReceiveChat(content: string, replySession: Option<string>, withSuggestions: bool, now: int)
      modifies this
      ensures messages == old(messages) + [Message(Str.IntToString(now + 1), Assistant, content, now,
        if withSuggestions then Some(SuggestedQuestions(moduleName)[..3]) else None, None)]
      ensures sessionId == (if Js.Filled(replySession) then replySession.value else old(sessionId))
      ensures input == old(input) && isLoading == old(isLoading) && conversationSummary == old(conversationSummary)
    {
      var suggestions := if withSuggestions then Some(SuggestedQuestions(moduleName)[..3]) else None;
      messages := messages + [Message(Str.IntToString(now + 1), Assistant, content, now, suggestions, None)];
      if Js.Filled(replySession) {
        sessionId := replySession.value;
      }
    }

    /** `handleError`. */
    method Fail(message: Option<string>, now: int)
      modifies this
      ensures messages == old(messages) + [Message(Str.IntToString(now + 1), Assistant,
        ERROR_LEAD + ErrorText(message) + ERROR_TAIL, now, None, None)]
      ensures input == old(input) && isLoading == old(isLoading)
      ensures sessionId == old(sessionId) && conversationSummary == old(conversationSummary)
    {
      messages := messages + [Message(Str.IntToString(now + 1), Assistant, ERROR_LEAD + ErrorText(message) + ERROR_TAIL,
        now, None, None)];
    }

    /** The `finally` of a send: loading stops. */
    method Settle()
      modifies this
      ensures !isLoading
      ensures messages == old(messages) && input == old(input)
      ensures sessionId == old(sessionId) && conversationSummary == old(conversationSummary)
    {
      isLoading := false;
    }

    /** `summarizeCurrentConversation`: runs only with a session id and at least three
        messages; the summary is stored and shown, and loading ends false either way it
        ran. */
    method Summarize(summary: string, now: int) returns (ran: bool)
      modifies this
      ensures ran <==> old(sessionId) != "" && |old(messages)| >= 3
      ensures !ran ==>
        messages == old(messages) && isLoading == old(isLoading) && conversationSummary == old(conversationSummary)
      ensures ran ==>
        messages == old(messages) + [Message("summary", System, SUMMARY_LEAD + summary, now, None, None)]
        && conversationSummary == summary && !isLoading
      ensures sessionId == old(sessionId) && input == old(input)
    {
      if sessionId == "" || |messages| < 3 {
        return false;
      }
      isLoading := true;
      conversationSummary := summary;
      messages := messages + [Message("summary", System, SUMMARY_LEAD + summary, now, None, None)];
      isLoading := false;
      ran := true;
    }

    /** `clearConversation`: the messages and summary are dropped and a new session
        starts with the restored context and the welcome message. */
    method ClearConversation(newSessionId: string, restored: seq<Message>, summary: string, now: int)
      modifies this
      ensures messages == restored + [Welcome(moduleName, model, now)]
      ensures conversationSummary == summary && sessionId == newSessionId
      ensures input == old(input) && isLoading == old(isLoading)
    {
      messages := [];
      conversationSummary := "";
      sessionId := newSessionId;
      messages := restored + [Welcome(moduleName, model, now)];
      conversationSummary := summary;
    }
  }
}
