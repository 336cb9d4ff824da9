/** The `/api/context` endpoint: store, retrieve, search and summarize the conversation
    context kept in the ai_conversations and ai_session_summaries tables. What the tables
    hold, the OpenAI replies, the cosine similarity and the clock are parameters. */
module ContextApi {
  import opened Wrappers
  import Str
  import Js
  import Ranking
  import Dedupe
  import CE = ConversationEntity
  import CS = ConversationSearch

  /** A row of ai_conversations as this endpoint writes and reads it: one embedding per
      message, and the message count from the row's metadata. */
  datatype Row = Row(sessionId: string, userId: Option<string>, messages: seq<CE.ChatMessage>,
                     embeddings: seq<seq<real>>, createdAt: int, messageCount: nat)

  /** The database and the completion model as one request finds them. `rows` lists
      ai_conversations newest first; a failed select or insert carries its error message;
      `storedSummary` is the session's ai_session_summaries text, if any. */
  datatype Backend = Backend(
    rows: seq<Row>, selectError: Option<string>, insertError: Option<string>,
    storedSummary: Option<string>, completion: Result<Option<string>>)

  /** The destructured request body; a missing `limit` is 10. */
  datatype Request = Request(
    verb: string, action: string, sessionId: string, userId: Option<string>,
    messages: Option<seq<CE.ChatMessage>>, query: string, limit: Option<nat>)

  datatype Body =
    | NoBody
    | Failure(error: string, details: Option<string>)
    | Stored(sessionId: string, messageCount: nat)
    | Retrieved(sessionId: string, messages: seq<CE.ChatMessage>, storedSummary: Option<string>, messageCount: nat)
    | Searched(query: string, results: seq<CS.Hit<Row>>, searchStrategy: string, totalResults: nat,
               queryTerms: seq<string>)
    | Summarized(sessionId: string, summary: string, messageCount: nat)

  datatype Response = Response(status: nat, body: Body)

  /** What a request writes to the database besides answering. */
  datatype Write =
    | InsertRow(row: Row)
    | QuickSummary(session: string, lastSummary: string)
    | FullSummary(session: string, summary: string, keyTopics: seq<string>, sentiment: string)

  datatype Outcome = Outcome(response: Response, writes: seq<Write>)

  const ACTIONS: seq<string> := ["store", "retrieve", "search", "summarize"]

  function LimitOf(req: Request): nat {
    if req.limit.Some? then req.limit.value else 10
  }

  /** The `catch` of the handler: every thrown error becomes a 500 with its message. */
  function InternalError(message: string): Response {
    Response(500, Failure("Failed to process context request", Some(message)))
  }

  // ------------------------------------------------------------------ store

  predicate HasMessages(req: Request) {
    req.messages.Some? && req.messages.value != []
  }

  /** `generateEmbeddings`: one embedding per message content, [] for a failed call. */
  function Embeddings(messages: seq<CE.ChatMessage>, embed: string -> Option<seq<real>>): (r: seq<seq<real>>)
    ensures |r| == |messages|
    ensures forall k :: 0 <= k < |messages| ==>
      r[k] == (if embed(messages[k].content).Some? then embed(messages[k].content).value else [])
  {
    seq(|messages|, k requires 0 <= k < |messages| =>
      if embed(messages[k].content).Some? then embed(messages[k].content).value else [])
  }

  /** Each message as the line "role: content". */
  function RoleLines(messages: seq<CE.ChatMessage>): (r: seq<string>)
    ensures |r| == |messages|
    ensures forall k :: 0 <= k < |messages| ==> r[k] == CE.RoleName(messages[k].role) + ": " + messages[k].content
  {
    seq(|messages|, k requires 0 <= k < |messages| => CE.RoleName(messages[k].role) + ": " + messages[k].content)
  }

  /** `generateQuickSummary`: the first 200 characters of the lines, then "...". */
  function QuickSummaryText(messages: seq<CE.ChatMessage>): (r: string)
    ensures Str.EndsWith(r, "...")
    ensures var text := Str.Join(RoleLines(messages), "\n");
      |r| == (if |text| < 200 then |text| else 200) + 3 && Str.StartsWith(text, r[..|r| - 3])
  {
    var text := Str.Join(RoleLines(messages), "\n");
    text[..if |text| < 200 then |text| else 200] + "..."
  }

  /** `messages.slice(-5)`. */
  function LastFive(messages: seq<CE.ChatMessage>): (r: seq<CE.ChatMessage>)
    ensures |r| == if |messages| < 5 then |messages| else 5
    ensures r == messages[|messages| - |r|..]
  {
    if |messages| <= 5 then messages else messages[|messages| - 5..]
  }

  /** `storeContext`: no messages is a 400; otherwise the row is inserted with one
      embedding per message, and the session summary is refreshed from the last five. */
  function StoreContext(req: Request, b: Backend, embed: string -> Option<seq<real>>, now: int): (out: Outcome)
    ensures !HasMessages(req) ==> out == Outcome(Response(400, Failure("No messages to store", None)), [])
    ensures HasMessages(req) && b.insertError.Some? ==>
      out == Outcome(InternalError("Failed to store context: " + b.insertError.value), [])
    ensures HasMessages(req) && b.insertError.None? ==>
      var ms := req.messages.value;
      && out.response == Response(200, Stored(req.sessionId, |ms|))
      && out.writes == [InsertRow(Row(req.sessionId, req.userId, ms, Embeddings(ms, embed), now, |ms|)),
                        QuickSummary(req.sessionId, QuickSummaryText(LastFive(ms)))]
  {
    if !HasMessages(req) then Outcome(Response(400, Failure("No messages to store", None)), [])
    else
      var ms := req.messages.value;
      if b.insertError.Some? then Outcome(InternalError("Failed to store context: " + b.insertError.value), [])
      else
        Outcome(Response(200, Stored(req.sessionId, |ms|)),
                [InsertRow(Row(req.sessionId, req.userId, ms, Embeddings(ms, embed), now, |ms|)),
                 QuickSummary(req.sessionId, QuickSummaryText(LastFive(ms)))])
  }

  // ------------------------------------------------------------------ retrieve

  /** The rows of one session, in the order listed. */
  function SessionRows(rows: seq<Row>, session: string): (r: seq<Row>)
    ensures forall x :: x in r <==> x in rows && x.sessionId == session
    decreases |rows|
  {
    if rows == [] then []
    else
      assert rows == [rows[0]] + rows[1..];
      (if rows[0].sessionId == session then [rows[0]] else []) + SessionRows(rows[1..], session)
  }

  /** `data.flatMap(item => item.messages)`. */
  function RowMessages(rows: seq<Row>): seq<CE.ChatMessage>
    decreases |rows|
  {
    if rows == [] then [] else rows[0].messages + RowMessages(rows[1..])
  }

  /** The flattened history holds exactly the messages of the rows. */
  lemma {:induction false} RowMessagesIn(rows: seq<Row>, m: CE.ChatMessage)
    ensures m in RowMessages(rows) <==> exists k :: 0 <= k < |rows| && m in rows[k].messages
    decreases |rows|
  {
    if rows != [] {
      RowMessagesIn(rows[1..], m);
      if m in RowMessages(rows[1..]) {
        var k :| 0 <= k < |rows[1..]| && m in rows[1..][k].messages;
        assert rows[k + 1] == rows[1..][k];
      }
      if exists k :: 0 <= k < |rows| && m in rows[k].messages {
        var k :| 0 <= k < |rows| && m in rows[k].messages;
        if k > 0 { assert rows[1..][k - 1] == rows[k]; }
      }
    }
  }

  /** `retrieveContext`: the newest `limit` rows of the session, their messages in that
      order, and the stored summary. */
  function RetrieveContext(req: Request, b: Backend): (r: Response)
    ensures b.selectError.Some? ==> r == InternalError("Failed to retrieve context: " + b.selectError.value)
    ensures b.selectError.None? ==> (
      && r.status == 200 && r.body.Retrieved?
      && r.body.messages == RowMessages(Ranking.Take(SessionRows(b.rows, req.sessionId), LimitOf(req)))
      && r.body.messageCount == |r.body.messages| && r.body.storedSummary == b.storedSummary)
  {
    if b.selectError.Some? then InternalError("Failed to retrieve context: " + b.selectError.value)
    else
      var history := RowMessages(Ranking.Take(SessionRows(b.rows, req.sessionId), LimitOf(req)));
      Response(200, Retrieved(req.sessionId, history, b.storedSummary, |history|))
  }

  // ------------------------------------------------------------------ search

  /** `if (userId) searchQuery = searchQuery.eq("user_id", userId)`. */
  function ForUser(rows: seq<Row>, userId: Option<string>): (r: seq<Row>)
    ensures !Js.Filled(userId) ==> r == rows
    ensures Js.Filled(userId) ==> forall x :: x in r <==> x in rows && x.userId == userId
    decreases |rows|
  {
    if !Js.Filled(userId) then rows
    else if rows == [] then []
    else
      assert rows == [rows[0]] + rows[1..];
      (if rows[0].userId == userId then [rows[0]] else []) + ForUser(rows[1..], userId)
  }

  function SessionOf(r: Row): string { r.sessionId }
  predicate Embedded(r: Row) { |r.embeddings| > 0 }
  function LowerText(r: Row): string { Str.Lower(Str.Join(CE.Contents(r.messages), " ")) }
  function CreatedOf(r: Row): int { r.createdAt }

  /** `performSemanticSearch`: at most 100 rows of the user, a failed select giving none. */
  function SemanticSearch(b: Backend, userId: Option<string>, sim: Row -> real, limit: nat): seq<CS.Hit<Row>> {
    if b.selectError.Some? then []
    else CS.Best(CS.SemanticCandidates(Ranking.Take(ForUser(b.rows, userId), 100), SessionOf, Embedded, sim), limit)
  }

  /** `performKeywordSearch`: at most 50 rows of the user scored against the query terms. */
  function KeywordSearch(b: Backend, query: string, userId: Option<string>, now: int, limit: nat): seq<CS.Hit<Row>> {
    if b.selectError.Some? then []
    else CS.Best(CS.KeywordCandidates(Ranking.Take(ForUser(b.rows, userId), 50), SessionOf, LowerText, CreatedOf,
                                      CS.SearchTerms(query), now), limit)
  }

  /** `performRecentSearch`: the user's newest `2 * limit` rows. */
  function RecentSearch(b: Backend, userId: Option<string>, limit: nat): seq<CS.Hit<Row>> {
    if b.selectError.Some? then [] else CS.RecentHits(Ranking.Take(ForUser(b.rows, userId), limit * 2), SessionOf)
  }

  /** Everything the three strategies push, with ceil(l/2), ceil(l/2) and ceil(l/3) asked of
      them. */
  function EnhancedHits(query: string, userId: Option<string>, limit: nat, b: Backend, sim: Row -> real, now: int): seq<CS.Hit<Row>> {
    SemanticSearch(b, userId, sim, CS.Ceil(limit, 2))
    + KeywordSearch(b, query, userId, now, CS.Ceil(limit, 2))
    + RecentSearch(b, userId, CS.Ceil(limit, 3))
  }

  /** The pushes of `performEnhancedSearch`. */
  method CollectHits(query: string, userId: Option<string>, limit: nat, b: Backend, sim: Row -> real, now: int)
    returns (results: seq<CS.Hit<Row>>)
    ensures results == EnhancedHits(query, userId, limit, b, sim, now)
  {
    results := [];
    var semantic := SemanticSearch(b, userId, sim, CS.Ceil(limit, 2));
    assert results + semantic == semantic;
    results := results + semantic;
    var byKeyword := KeywordSearch(b, query, userId, now, CS.Ceil(limit, 2));
    results := results + byKeyword;
    var recent := RecentSearch(b, userId, CS.Ceil(limit, 3));
    results := results + recent;
  }

  /** `performEnhancedSearch`: the pushed hits de-duplicated by "sessionId-type", sorted
      by relevance and cut to `limit`. */
  method PerformEnhancedSearch(query: string, userId: Option<string>, limit: nat, b: Backend, sim: Row -> real, now: int)
    returns (r: seq<CS.Hit<Row>>)
    ensures r == CS.Rank(EnhancedHits(query, userId, limit, b, sim, now), limit)
  {
    var results := CollectHits(query, userId, limit, b, sim, now);
    var unique := Dedupe.Run(results, CS.HitKey);
    r := CS.Best(unique, limit);
  }

  /** Each sub-search returns at most the number of hits asked of it; the recent one reads
      twice as many rows and keeps them all. */
  lemma SemanticSize(b: Backend, userId: Option<string>, sim: Row -> real, n: nat)
    ensures |SemanticSearch(b, userId, sim, n)| <= n
  {
    if b.selectError.None? {
      CS.BestProps(CS.SemanticCandidates(Ranking.Take(ForUser(b.rows, userId), 100), SessionOf, Embedded, sim), n);
    }
  }

  lemma KeywordSize(b: Backend, query: string, userId: Option<string>, now: int, n: nat)
    ensures |KeywordSearch(b, query, userId, now, n)| <= n
  {
    if b.selectError.None? {
      CS.BestProps(CS.KeywordCandidates(Ranking.Take(ForUser(b.rows, userId), 50), SessionOf, LowerText, CreatedOf,
                                        CS.SearchTerms(query), now), n);
    }
  }

  lemma RecentSize(b: Backend, userId: Option<string>, n: nat)
    ensures |RecentSearch(b, userId, n)| <= n * 2
    ensures b.selectError.None? && |ForUser(b.rows, userId)| >= n * 2 ==> |RecentSearch(b, userId, n)| == n * 2
  {
  }

  lemma TakeIn(rows: seq<Row>, n: nat, x: Row)
    requires x in Ranking.Take(rows, n)
    ensures x in rows
  {
    var k :| 0 <= k < |Ranking.Take(rows, n)| && Ranking.Take(rows, n)[k] == x;
    assert rows[k] == x;
  }

  /** Every pushed hit is about a row the user filter let through. */
  lemma HitsFromRows(query: string, userId: Option<string>, limit: nat, b: Backend, sim: Row -> real, now: int)
    ensures forall h :: h in EnhancedHits(query, userId, limit, b, sim, now) ==> h.item in ForUser(b.rows, userId)
  {
    var rows := ForUser(b.rows, userId);
    var sem := SemanticSearch(b, userId, sim, CS.Ceil(limit, 2));
    var kw := KeywordSearch(b, query, userId, now, CS.Ceil(limit, 2));
    var rec := RecentSearch(b, userId, CS.Ceil(limit, 3));
    forall h | h in sem ensures h.item in rows {
      var c := CS.SemanticCandidates(Ranking.Take(rows, 100), SessionOf, Embedded, sim);
      CS.BestProps(c, CS.Ceil(limit, 2));
      TakeIn(rows, 100, h.item);
    }
    forall h | h in kw ensures h.item in rows {
      var c := CS.KeywordCandidates(Ranking.Take(rows, 50), SessionOf, LowerText, CreatedOf, CS.SearchTerms(query), now);
      CS.BestProps(c, CS.Ceil(limit, 2));
      TakeIn(rows, 50, h.item);
    }
    forall h | h in rec ensures h.item in rows {
      var k :| 0 <= k < |rec| && rec[k] == h;
      TakeIn(rows, CS.Ceil(limit, 3) * 2, h.item);
    }
  }

  /** The merged answer has at most `limit` hits, in non-increasing relevance, one per
      (session, strategy) pair, all about rows of the requesting user. */
  lemma EnhancedSearchProps(query: string, userId: Option<string>, limit: nat, b: Backend, sim: Row -> real, now: int)
    ensures var r := CS.Rank(EnhancedHits(query, userId, limit, b, sim, now), limit);
      && |r| <= limit
      && (forall i, j :: 0 <= i < j < |r| ==> r[i].relevance >= r[j].relevance)
      && (forall i, j :: 0 <= i < j < |r| ==> r[i].sessionId != r[j].sessionId || r[i].kind != r[j].kind)
      && (forall h :: h in r ==> h.item in b.rows && (Js.Filled(userId) ==> h.item.userId == userId))
  {
    var m := EnhancedHits(query, userId, limit, b, sim, now);
    CS.RankProps(m, limit);
    HitsFromRows(query, userId, limit, b, sim, now);
  }

  /** `searchContext`. */
  method SearchContext(req: Request, b: Backend, sim: Row -> real, now: int) returns (r: Response)
    ensures r.status == 200 && r.body.Searched? && r.body.query == req.query
    ensures r.body.results == CS.Rank(EnhancedHits(req.query, req.userId, LimitOf(req), b, sim, now), LimitOf(req))
    ensures r.body.searchStrategy == (if r.body.results != [] then "enhanced" else "fallback")
    ensures r.body.totalResults == |r.body.results| && r.body.queryTerms == CS.SearchTerms(req.query)
  {
    var results := PerformEnhancedSearch(req.query, req.userId, LimitOf(req), b, sim, now);
    r := Response(200, Searched(req.query, results, if |results| > 0 then "enhanced" else "fallback", |results|,
                                CS.SearchTerms(req.query)));
  }

  // ------------------------------------------------------------------ summarize

  /** `summarizeContext`: a session without messages is a 404; otherwise the completion's
      text is stored with its key topics and the messages' sentiment. */
  method SummarizeContext(req: Request, b: Backend) returns (out: Outcome)
    ensures b.selectError.Some? ==> out == Outcome(InternalError("Failed to summarize context: " + b.selectError.value), [])
    ensures b.selectError.None? && RowMessages(SessionRows(b.rows, req.sessionId)) == [] ==>
      out == Outcome(Response(404, Failure("No messages found for session", None)), [])
    ensures b.selectError.None? && RowMessages(SessionRows(b.rows, req.sessionId)) != [] && b.completion.Err? ==>
      out == Outcome(InternalError("Failed to summarize context: " + b.completion.msg), [])
    ensures out.response.status == 200 ==>
      var ms := RowMessages(SessionRows(b.rows, req.sessionId));
      var summary := if b.completion.value.Some? then b.completion.value.value else "";
      && out.response == Response(200, Summarized(req.sessionId, summary, |ms|))
      && out.writes == [FullSummary(req.sessionId, summary, CS.KeyTopics(summary), CS.Sentiment(ms))]
    ensures out.response.status == 200 <==>
      b.selectError.None? && RowMessages(SessionRows(b.rows, req.sessionId)) != [] && b.completion.Ok?
  {
    if b.selectError.Some? {
      return Outcome(InternalError("Failed to summarize context: " + b.selectError.value), []);
    }
    var allMessages := RowMessages(SessionRows(b.rows, req.sessionId));
    if |allMessages| == 0 {
      return Outcome(Response(404, Failure("No messages found for session", None)), []);
    }
    if b.completion.Err? {
      return Outcome(InternalError("Failed to summarize context: " + b.completion.msg), []);
    }
    var summary := if b.completion.value.Some? then b.completion.value.value else "";
    var sentiment := CS.AnalyzeSentiment(allMessages);
    out := Outcome(Response(200, Summarized(req.sessionId, summary, |allMessages|)),
                   [FullSummary(req.sessionId, summary, CS.KeyTopics(summary), sentiment)]);
  }

  // ------------------------------------------------------------------ handler

  /** `handler`: OPTIONS is answered at once, the action picks the operation, and an
      unknown action is a 400. */
  method Handle(req: Request, b: Backend, embed: string -> Option<seq<real>>, sim: Row -> real, now: int)
    returns (out: Outcome)
    ensures req.verb == "OPTIONS" ==> out == Outcome(Response(200, NoBody), [])
    ensures req.verb != "OPTIONS" && req.action !in ACTIONS ==>
      out == Outcome(Response(400, Failure("Invalid action", None)), [])
    ensures req.verb != "OPTIONS" && req.action == "store" ==> out == StoreContext(req, b, embed, now)
    ensures req.verb != "OPTIONS" && req.action == "retrieve" ==> out == Outcome(RetrieveContext(req, b), [])
    ensures req.verb != "OPTIONS" && req.action == "search" ==>
      && out.writes == [] && out.response.status == 200 && out.response.body.Searched?
      && out.response.body.query == req.query
      && out.response.body.results == CS.Rank(EnhancedHits(req.query, req.userId, LimitOf(req), b, sim, now), LimitOf(req))
      && out.response.body.searchStrategy == (if out.response.body.results != [] then "enhanced" else "fallback")
      && out.response.body.totalResults == |out.response.body.results|
      && out.response.body.queryTerms == CS.SearchTerms(req.query)
    ensures req.verb != "OPTIONS" && req.action == "summarize" ==>
      var ms := RowMessages(SessionRows(b.rows, req.sessionId));
      && (b.selectError.Some? ==> out == Outcome(InternalError("Failed to summarize context: " + b.selectError.value), []))
      && (b.selectError.None? && ms == [] ==> out == Outcome(Response(404, Failure("No messages found for session", None)), []))
      && (b.selectError.None? && ms != [] && b.completion.Err? ==>
            out == Outcome(InternalError("Failed to summarize context: " + b.completion.msg), []))
      && (out.response.status == 200 <==> b.selectError.None? && ms != [] && b.completion.Ok?)
      && (out.response.status == 200 ==>
            var summary := if b.completion.value.Some? then b.completion.value.value else "";
            && out.response == Response(200, Summarized(req.sessionId, summary, |ms|))
            && out.writes == [FullSummary(req.sessionId, summary, CS.KeyTopics(summary), CS.Sentiment(ms))])
    ensures out.response.status == 500 ==> out.response.body.Failure? && out.response.body.error == "Failed to process context request"
    ensures out.writes != [] ==> out.response.status == 200
  {
    if req.verb == "OPTIONS" {
      return Outcome(Response(200, NoBody), []);
    }
    match req.action
    case "store" => out := StoreContext(req, b, embed, now);
    case "retrieve" => out := Outcome(RetrieveContext(req, b), []);
    case "search" =>
      var r := SearchContext(req, b, sim, now);
      out := Outcome(r, []);
    case "summarize" => out := SummarizeContext(req, b);
    case _ => out := Outcome(Response(400, Failure("Invalid action", None)), []);
  }

  /** Exactly two requests are turned away with a 400: an unknown action, and "store"
      without messages. */
  lemma BadRequestIff(req: Request, b: Backend, embed: string -> Option<seq<real>>, now: int)
    requires req.verb != "OPTIONS" && req.action in ["store", "retrieve"]
    ensures (if req.action == "store" then StoreContext(req, b, embed, now).response else RetrieveContext(req, b)).status == 400
      <==> req.action == "store" && !HasMessages(req)
  {
  }
}
