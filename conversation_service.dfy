/** AIConversationService: storing a conversation with one embedding of its joined text,
    reading a session back, the multi-strategy conversation search and the session
    summary. The repository's answers, the embedding and completion replies, the cosine
    similarity and the clock are parameters. */
module ConversationService {
  import opened Wrappers
  import Str
  import Ranking
  import Dedupe
  import CE = ConversationEntity
  import CS = ConversationSearch

  /** `generateEmbedding`: the vector of the reply, or [] when the call failed (a thrown
      error, or a reply without data, is logged and swallowed). */
  function EmbeddingOf(reply: Option<seq<real>>): seq<real> {
    if reply.Some? then reply.value else []
  }

  /** `storeConversation`: the conversation handed to `repository.create`. The embedding
      is of the message contents joined with spaces, and it is only requested when there is
      at least one message. */
  function StoreConversation(sessionId: string, messages: seq<CE.ChatMessage>, metadata: Option<CE.Metadata>,
                             userId: Option<string>, embed: string -> Option<seq<real>>, now: int): (c: CE.Conversation)
    ensures c.embedding.Some? <==> messages != []
    ensures messages != [] ==> c.embedding.value == EmbeddingOf(embed(Str.Join(CE.Contents(messages), " ")))
    ensures c.id == "" && c.sessionId == sessionId && c.messages == messages
    ensures c.metadata == metadata && c.createdAt == now
    ensures c.userId.Some? ==> c.userId == userId
  {
    var embedding := if |messages| > 0 then Some(EmbeddingOf(embed(Str.Join(CE.Contents(messages), " ")))) else None;
    CE.CreateNew(sessionId, messages, userId, embedding, metadata, now)
  }

  /** `conversations.flatMap(conv => conv.messages)`. */
  function AllMessages(convs: seq<CE.Conversation>): seq<CE.ChatMessage>
    decreases |convs|
  {
    if convs == [] then [] else convs[0].messages + AllMessages(convs[1..])
  }

  /** Flattening distributes over concatenation, so the messages come conversation by
      conversation in repository order; it is empty exactly when every conversation is. */
  lemma {:induction false} AllMessagesAppend(a: seq<CE.Conversation>, b: seq<CE.Conversation>)
    ensures AllMessages(a + b) == AllMessages(a) + AllMessages(b)
    decreases |a|
  {
    if a != [] {
      assert (a + b)[0] == a[0] && (a + b)[1..] == a[1..] + b;
      AllMessagesAppend(a[1..], b);
      calc {
        AllMessages(a + b);
        a[0].messages + AllMessages(a[1..] + b);
        a[0].messages + (AllMessages(a[1..]) + AllMessages(b));
        (a[0].messages + AllMessages(a[1..])) + AllMessages(b);
      }
    } else {
      assert a + b == b;
    }
  }

  lemma {:induction false} AllMessagesEmpty(convs: seq<CE.Conversation>)
    ensures AllMessages(convs) == [] <==> forall k :: 0 <= k < |convs| ==> convs[k].messages == []
    decreases |convs|
  {
    if convs != [] {
      AllMessagesEmpty(convs[1..]);
      assert forall k :: 1 <= k < |convs| ==> convs[k] == convs[1..][k - 1];
    }
  }

  datatype Retrieved = Retrieved(conversations: seq<CE.Conversation>, messages: seq<CE.ChatMessage>)

  /** `retrieveConversation` over what `findBySessionId` returned. */
  function RetrieveConversation(found: seq<CE.Conversation>): (r: Retrieved)
    ensures r.conversations == found
    ensures |found| == 1 ==> r.messages == found[0].messages
  {
    assert |found| == 1 ==> found[1..] == [] && AllMessages(found) == found[0].messages + [];
    Retrieved(found, AllMessages(found))
  }

  // ------------------------------------------------------------------ search

  /** Rows that can be compared with the query embedding. */
  predicate HasEmbedding(c: CE.Conversation) {
    c.embedding.Some? && |c.embedding.value| > 0
  }

  function SessionOf(c: CE.Conversation): string { c.sessionId }

  /** The text the keywords are counted in: `getMessageText().toLowerCase()`. */
  function LowerText(c: CE.Conversation): string { Str.Lower(CE.MessageText(c)) }

  function CreatedOf(c: CE.Conversation): int { c.createdAt }

  /** `performSemanticSearch` over the repository's embedding matches. */
  function SemanticSearch(rows: seq<CE.Conversation>, sim: CE.Conversation -> real, limit: nat): seq<CS.Hit<CE.Conversation>> {
    CS.Best(CS.SemanticCandidates(rows, SessionOf, HasEmbedding, sim), limit)
  }

  /** `performKeywordSearch` over the repository's keyword matches. */
  function KeywordSearch(rows: seq<CE.Conversation>, terms: seq<string>, now: int, limit: nat): seq<CS.Hit<CE.Conversation>> {
    CS.Best(CS.KeywordCandidates(rows, SessionOf, LowerText, CreatedOf, terms, now), limit)
  }

  /** `performRecentSearch` over the repository's recent conversations. */
  function RecentSearch(rows: seq<CE.Conversation>): seq<CS.Hit<CE.Conversation>> {
    CS.RecentHits(rows, SessionOf)
  }

  /** All hits in the order the three strategies push them. */
  function Merged(query: string, limit: nat, semanticRows: seq<CE.Conversation>, keywordRows: seq<CE.Conversation>,
                  recentRows: seq<CE.Conversation>, sim: CE.Conversation -> real, now: int): seq<CS.Hit<CE.Conversation>> {
    SemanticSearch(semanticRows, sim, CS.Ceil(limit, 2))
    + KeywordSearch(keywordRows, CS.SearchTerms(query), now, CS.Ceil(limit, 2))
    + RecentSearch(recentRows)
  }

  datatype SearchOutcome = SearchOutcome(
    results: seq<CS.Hit<CE.Conversation>>, searchStrategy: string, totalResults: nat, queryTerms: seq<string>)

  /** The `results.push(...)` sequence of `searchConversations`. */
  method CollectHits(query: string, limit: nat, semanticRows: seq<CE.Conversation>,
                     keywordRows: seq<CE.Conversation>, recentRows: seq<CE.Conversation>,
                     sim: CE.Conversation -> real, now: int)
    returns (results: seq<CS.Hit<CE.Conversation>>)
    ensures results == Merged(query, limit, semanticRows, keywordRows, recentRows, sim, now)
  {
    results := [];
    var semantic := SemanticSearch(semanticRows, sim, CS.Ceil(limit, 2));
    assert results + semantic == semantic;
    results := results + semantic;
    var byKeyword := KeywordSearch(keywordRows, CS.SearchTerms(query), now, CS.Ceil(limit, 2));
    results := results + byKeyword;
    var recent := RecentSearch(recentRows);
    results := results + recent;
  }

  /** `searchConversations`: push the three strategies' hits, drop repeated (session,
      strategy) pairs keeping the first, sort by relevance and keep `limit`. */
  method SearchConversations(query: string, limit: nat, semanticRows: seq<CE.Conversation>,
                             keywordRows: seq<CE.Conversation>, recentRows: seq<CE.Conversation>,
                             sim: CE.Conversation -> real, now: int)
    returns (out: SearchOutcome)
    ensures out.results == CS.Rank(Merged(query, limit, semanticRows, keywordRows, recentRows, sim, now), limit)
    ensures out.searchStrategy == "enhanced" <==> out.results != []
    ensures out.searchStrategy == "fallback" <==> out.results == []
    ensures out.totalResults == |out.results| && out.queryTerms == CS.SearchTerms(query)
  {
    var results := CollectHits(query, limit, semanticRows, keywordRows, recentRows, sim, now);
    var unique := Dedupe.Run(results, CS.HitKey);
    var ranked := CS.Best(unique, limit);
    out := SearchOutcome(ranked, if |ranked| > 0 then "enhanced" else "fallback", |ranked|, CS.SearchTerms(query));
  }

  /** The search returns at most `limit` results in non-increasing relevance, one per
      (session, strategy) pair, each found by one of the strategies; it returns none only
      when `limit` is 0 or no strategy found anything. */
  lemma SearchProps(query: string, limit: nat, semanticRows: seq<CE.Conversation>, keywordRows: seq<CE.Conversation>,
                    recentRows: seq<CE.Conversation>, sim: CE.Conversation -> real, now: int)
    ensures var m := Merged(query, limit, semanticRows, keywordRows, recentRows, sim, now);
      var r := CS.Rank(m, limit);
      && |r| <= limit
      && (forall i, j :: 0 <= i < j < |r| ==> r[i].relevance >= r[j].relevance)
      && (forall i, j :: 0 <= i < j < |r| ==> r[i].sessionId != r[j].sessionId || r[i].kind != r[j].kind)
      && (forall h :: h in r ==> h.item in semanticRows + keywordRows + recentRows)
      && (r == [] <==> limit == 0 || m == [])
  {
    var m := Merged(query, limit, semanticRows, keywordRows, recentRows, sim, now);
    CS.RankProps(m, limit);
    var sem := CS.SemanticCandidates(semanticRows, SessionOf, HasEmbedding, sim);
    var kw := CS.KeywordCandidates(keywordRows, SessionOf, LowerText, CreatedOf, CS.SearchTerms(query), now);
    CS.BestProps(sem, CS.Ceil(limit, 2));
    CS.BestProps(kw, CS.Ceil(limit, 2));
    forall h | h in CS.Rank(m, limit) ensures h.item in semanticRows + keywordRows + recentRows {
      assert h in m;
      if h in RecentSearch(recentRows) {
        var k :| 0 <= k < |recentRows| && RecentSearch(recentRows)[k] == h;
      }
    }
  }

  // ------------------------------------------------------------------ summary

  datatype Summary = Summary(summary: string, keyTopics: seq<string>, sentiment: string, messageCount: nat)

  /** `summarizeConversation`: fails on a session without messages; otherwise the
      completion's text (or "" when it has none) with its key topics, the sentiment of the
      messages and their number. A failed completion call propagates its error. */
  method SummarizeConversation(found: seq<CE.Conversation>, completion: Result<Option<string>>)
    returns (r: Result<Summary>)
    ensures r.Err? <==> AllMessages(found) == [] || completion.Err?
    ensures AllMessages(found) == [] ==> r == Err("No messages found for session")
    ensures AllMessages(found) != [] && completion.Err? ==> r == Err(completion.msg)
    ensures r.Ok? ==> var messages := AllMessages(found);
      && r.value.summary == (if completion.value.Some? then completion.value.value else "")
      && r.value.keyTopics == CS.KeyTopics(r.value.summary)
      && r.value.sentiment == CS.Sentiment(messages)
      && r.value.messageCount == |messages|
  {
    var messages := RetrieveConversation(found).messages;
    if |messages| == 0 {
      return Err("No messages found for session");
    }
    if completion.Err? {
      return Err(completion.msg);
    }
    var summary := if completion.value.Some? then completion.value.value else "";
    var sentiment := CS.AnalyzeSentiment(messages);
    r := Ok(Summary(summary, CS.KeyTopics(summary), sentiment, |messages|));
  }
}
