/** The conversation search and text analysis that the conversation service and the context
    endpoint share: search terms, the match counts of literal regular expressions, keyword
    sentiment, key topics, the three scored sub-searches and the merged ranking. */
module ConversationSearch {
  import opened Wrappers
  import Str
  import Ranking
  import Dedupe
  import Tally
  import CE = ConversationEntity

  // ------------------------------------------------------------------ search terms

  /** `term.replace(/[^\w]/g, "")`: the word characters of the term, in order. */
  function StripNonWord(s: string): (r: string)
    ensures |r| <= |s|
    ensures forall k :: 0 <= k < |r| ==> Str.IsWordChar(r[k]) && r[k] in s
    ensures (forall k :: 0 <= k < |s| ==> Str.IsWordChar(s[k])) ==> r == s
    decreases |s|
  {
    if s == [] then ""
    else
      assert s == [s[0]] + s[1..];
      (if Str.IsWordChar(s[0]) then [s[0]] else "") + StripNonWord(s[1..])
  }

  /** `.filter(term => term.length > 2)`. */
  function LongTokens(tokens: seq<string>): (r: seq<string>)
    ensures |r| <= |tokens|
    ensures forall x :: x in r <==> x in tokens && |x| > 2
    decreases |tokens|
  {
    if tokens == [] then []
    else
      assert tokens == [tokens[0]] + tokens[1..];
      (if |tokens[0]| > 2 then [tokens[0]] else []) + LongTokens(tokens[1..])
  }

  /** The long tokens keep their order. */
  lemma {:induction false} LongTokensOrder(tokens: seq<string>)
    ensures Dedupe.Subseq(LongTokens(tokens), tokens)
    decreases |tokens|
  {
    if tokens != [] {
      var rest := LongTokens(tokens[1..]);
      LongTokensOrder(tokens[1..]);
      var r := LongTokens(tokens);
      if |tokens[0]| > 2 {
        assert r == [tokens[0]] + rest;
        assert r[0] == tokens[0] && r[1..] == rest;
      } else if rest != [] {
        assert r == rest;
        assert Dedupe.Subseq(r, tokens[1..]);
      }
    }
  }

  function StripAll(ts: seq<string>): (r: seq<string>)
    ensures |r| == |ts| && forall k :: 0 <= k < |ts| ==> r[k] == StripNonWord(ts[k])
  {
    seq(|ts|, k requires 0 <= k < |ts| => StripNonWord(ts[k]))
  }

  /** `extractSearchTerms`: lower-case, split at runs of white space, keep the tokens longer
      than two characters, then drop their non-word characters. */
  function SearchTerms(query: string): seq<string> {
    StripAll(LongTokens(Str.SplitWs(Str.Lower(query))))
  }

  /** Every character of a piece of `SplitWs(s)` is a character of s. */
  lemma {:induction false} SplitWsChars(s: string)
    ensures forall k, j :: 0 <= k < |Str.SplitWs(s)| && 0 <= j < |Str.SplitWs(s)[k]| ==> Str.SplitWs(s)[k][j] in s
    decreases |s|
  {
    match Str.FirstSpace(s, 0)
    case None =>
    case Some(i) =>
      var j := Str.SkipSpaces(s, i);
      SplitWsChars(s[j..]);
      var r := Str.SplitWs(s);
      assert r == [s[..i]] + Str.SplitWs(s[j..]);
      forall k, m | 0 <= k < |r| && 0 <= m < |r[k]| ensures r[k][m] in s {
        if k == 0 {
          assert r[0][m] == s[m];
        } else {
          assert r[k] == Str.SplitWs(s[j..])[k - 1];
          assert r[k][m] in s[j..];
        }
      }
  }

  /** The terms are made of lower-case word characters; each one is what is left of a
      white-space token of the query longer than two characters, and there are no more
      terms than tokens. */
  lemma SearchTermsProps(query: string)
    ensures |SearchTerms(query)| <= |Str.SplitWs(Str.Lower(query))|
    ensures forall k, j :: 0 <= k < |SearchTerms(query)| && 0 <= j < |SearchTerms(query)[k]| ==>
      Str.IsWordChar(SearchTerms(query)[k][j]) && !Str.IsUpper(SearchTerms(query)[k][j])
    ensures forall k :: 0 <= k < |SearchTerms(query)| ==>
      exists t :: t in Str.SplitWs(Str.Lower(query)) && |t| > 2 && SearchTerms(query)[k] == StripNonWord(t)
  {
    var low := Str.Lower(query);
    var tokens := LongTokens(Str.SplitWs(low));
    var r := SearchTerms(query);
    forall k, j | 0 <= k < |r| && 0 <= j < |r[k]| ensures Str.IsWordChar(r[k][j]) && !Str.IsUpper(r[k][j]) {
      TermChar(query, k, j);
    }
    forall k | 0 <= k < |r|
      ensures exists t :: t in Str.SplitWs(low) && |t| > 2 && r[k] == StripNonWord(t)
    {
      assert tokens[k] in tokens;
    }
  }

  lemma TermChar(query: string, k: nat, j: nat)
    requires k < |SearchTerms(query)| && j < |SearchTerms(query)[k]|
    ensures Str.IsWordChar(SearchTerms(query)[k][j]) && !Str.IsUpper(SearchTerms(query)[k][j])
  {
    var low := Str.Lower(query);
    var tokens := LongTokens(Str.SplitWs(low));
    var r := SearchTerms(query);
    assert r[k] == StripNonWord(tokens[k]);
    var c := r[k][j];
    assert Str.IsWordChar(c) && c in tokens[k];
    assert tokens[k] in tokens;
    PieceChar(low, tokens[k], c);
    LowerNoUpper(query, c);
  }

  lemma PieceChar(s: string, t: string, c: char)
    requires t in Str.SplitWs(s) && c in t
    ensures c in s
  {
    SplitWsChars(s);
    var p :| 0 <= p < |Str.SplitWs(s)| && Str.SplitWs(s)[p] == t;
    var m :| 0 <= m < |t| && t[m] == c;
    assert Str.SplitWs(s)[p][m] in s;
  }

  lemma LowerNoUpper(s: string, c: char)
    requires c in Str.Lower(s)
    ensures !Str.IsUpper(c)
  {
    var q :| 0 <= q < |Str.Lower(s)| && Str.Lower(s)[q] == c;
    assert c == Str.LowerChar(s[q]);
  }

  /** The length test looks at the raw token, so a kept token can lose characters: "a!!"
      becomes "a" and "!!!" becomes the empty term. */
  lemma StripAfterLengthTest()
    ensures StripNonWord("!!!") == "" && StripNonWord("a!!") == "a"
  {
    assert !Str.IsWordChar('!') && Str.IsWordChar('a');
    assert "!!!"[1..] == "!!" && "!!"[1..] == "!" && "!"[1..] == "";
    assert "a!!"[1..] == "!!";
    assert StripNonWord("") == "";
    assert StripNonWord("!") == "";
    assert StripNonWord("!!") == "";
  }

  // ------------------------------------------------------------------ match counts

  /** The leftmost non-overlapping occurrences of a non-empty literal t from index `from`
      on, as a global regular expression finds them. */
  function CountFrom(s: string, t: string, from: nat): nat
    requires t != []
    decreases |s| - from
  {
    match Str.IndexOf(s, t, from)
    case None => 0
    case Some(i) => 1 + CountFrom(s, t, i + |t|)
  }

  /** `(text.match(new RegExp(t, "g")) || []).length` for a pattern t of word characters
      only: the empty pattern matches at every index and at the end. */
  function MatchCount(s: string, t: string): nat {
    if t == "" then |s| + 1 else CountFrom(s, t, 0)
  }

  lemma {:induction false} CountFromBound(s: string, t: string, from: nat)
    requires t != [] && from <= |s|
    ensures CountFrom(s, t, from) * |t| <= |s| - from
    decreases |s| - from
  {
    match Str.IndexOf(s, t, from)
    case None =>
    case Some(i) =>
      Str.IndexOfFirst(s, t, from);
      CountFromBound(s, t, i + |t|);
      MulStep(CountFrom(s, t, i + |t|), |t|);
  }

  lemma MulStep(c: nat, n: nat)
    ensures (c + 1) * n == c * n + n
  {
  }

  /** A non-empty literal matches at least once exactly when the text contains it, and at
      most |s| / |t| times; the empty pattern always matches. */
  lemma MatchCountProps(s: string, t: string)
    ensures MatchCount(s, t) > 0 <==> t == "" || Str.Contains(s, t)
    ensures t != "" ==> MatchCount(s, t) * |t| <= |s|
  {
    if t != "" {
      CountFromBound(s, t, 0);
    }
  }

  /** Total matches of a list of literal patterns, as the `forEach` of the source adds
      them up. */
  function WordHits(text: string, words: seq<string>): nat
    decreases |words|
  {
    if words == [] then 0
    else WordHits(text, words[..|words| - 1]) + MatchCount(text, words[|words| - 1])
  }

  lemma {:induction false} WordHitsZero(text: string, words: seq<string>)
    ensures WordHits(text, words) == 0 <==> forall k :: 0 <= k < |words| ==> MatchCount(text, words[k]) == 0
    decreases |words|
  {
    if words != [] {
      var init := words[..|words| - 1];
      WordHitsZero(text, init);
      if WordHits(text, words) == 0 {
        forall k | 0 <= k < |words| ensures MatchCount(text, words[k]) == 0 {
          if k < |words| - 1 { assert words[k] == init[k]; }
        }
      } else if WordHits(text, init) > 0 {
        var k :| 0 <= k < |init| && MatchCount(text, init[k]) != 0;
        assert words[k] == init[k];
      }
    }
  }

  // ------------------------------------------------------------------ sentiment

  const POSITIVE_WORDS: seq<string> := ["great", "excellent", "good", "happy", "success", "positive"]
  const NEGATIVE_WORDS: seq<string> := ["bad", "poor", "unhappy", "fail", "negative", "problem"]

  /** The label for the two counts, with `pos > neg * 1.5` and `neg > pos * 1.5` read
      exactly: the two tests never both hold, and no hits at all is neutral. */
  function SentimentLabel(pos: nat, neg: nat): (r: string)
    ensures r == "positive" <==> 2 * pos > 3 * neg
    ensures r == "negative" <==> 2 * neg > 3 * pos
    ensures r == "neutral" <==> 2 * pos <= 3 * neg && 2 * neg <= 3 * pos
    ensures pos == 0 && neg == 0 ==> r == "neutral"
  {
    if pos as real > neg as real * 1.5 then "positive"
    else if neg as real > pos as real * 1.5 then "negative"
    else "neutral"
  }

  /** The text the sentiment words are counted in: the contents joined with spaces, in
      lower case. */
  function SentimentText(messages: seq<CE.ChatMessage>): string {
    Str.Lower(Str.Join(CE.Contents(messages), " "))
  }

  function Sentiment(messages: seq<CE.ChatMessage>): string {
    var text := SentimentText(messages);
    SentimentLabel(WordHits(text, POSITIVE_WORDS), WordHits(text, NEGATIVE_WORDS))
  }

  /** `analyzeSentiment`: two counters, each increased by the matches of one word at a
      time. */
  method AnalyzeSentiment(messages: seq<CE.ChatMessage>) returns (r: string)
    ensures r == Sentiment(messages)
  {
    var text := SentimentText(messages);
    var positiveCount := 0;
    var negativeCount := 0;
    var i := 0;
    while i < |POSITIVE_WORDS|
      invariant 0 <= i <= |POSITIVE_WORDS|
      invariant positiveCount == WordHits(text, POSITIVE_WORDS[..i])
    {
      assert POSITIVE_WORDS[..i + 1][..i] == POSITIVE_WORDS[..i];
      positiveCount := positiveCount + MatchCount(text, POSITIVE_WORDS[i]);
      i := i + 1;
    }
    i := 0;
    while i < |NEGATIVE_WORDS|
      invariant 0 <= i <= |NEGATIVE_WORDS|
      invariant negativeCount == WordHits(text, NEGATIVE_WORDS[..i])
    {
      assert NEGATIVE_WORDS[..i + 1][..i] == NEGATIVE_WORDS[..i];
      negativeCount := negativeCount + MatchCount(text, NEGATIVE_WORDS[i]);
      i := i + 1;
    }
    assert POSITIVE_WORDS[..|POSITIVE_WORDS|] == POSITIVE_WORDS;
    assert NEGATIVE_WORDS[..|NEGATIVE_WORDS|] == NEGATIVE_WORDS;
    r := SentimentLabel(positiveCount, negativeCount);
  }

  /** Messages that contain none of the twelve words are neutral. */
  lemma NoSentimentWordsNeutral(messages: seq<CE.ChatMessage>)
    requires forall k :: 0 <= k < 6 ==> !Str.Contains(SentimentText(messages), POSITIVE_WORDS[k])
    requires forall k :: 0 <= k < 6 ==> !Str.Contains(SentimentText(messages), NEGATIVE_WORDS[k])
    ensures Sentiment(messages) == "neutral"
  {
    var text := SentimentText(messages);
    forall k | 0 <= k < 6 ensures MatchCount(text, POSITIVE_WORDS[k]) == 0 {
      MatchCountProps(text, POSITIVE_WORDS[k]);
    }
    forall k | 0 <= k < 6 ensures MatchCount(text, NEGATIVE_WORDS[k]) == 0 {
      MatchCountProps(text, NEGATIVE_WORDS[k]);
    }
    WordHitsZero(text, POSITIVE_WORDS);
    WordHitsZero(text, NEGATIVE_WORDS);
  }

  // ------------------------------------------------------------------ key topics

  /** `/discussed ([\w\s]+)/gi`, `/topics?: ([\w\s,]+)/gi` and `/about ([\w\s]+)/gi`. */
  datatype Pattern = Discussed | Topics | About

  /** The characters the capture group takes. */
  predicate InGroup(p: Pattern, c: char) {
    Str.IsWordChar(c) || Str.IsSpace(c) || (p == Topics && c == ',')
  }

  /** Where the capture group starts when the pattern matches at index i, ignoring case;
      `topics?: ` tries the plural first and falls back to "topic: ". */
  function GroupStart(p: Pattern, s: string, i: nat): (r: Option<nat>)
    ensures r.Some? ==> i < r.value < |s| && InGroup(p, s[r.value])
  {
    match p
    case Discussed =>
      if Str.AtIgnoringCase(s, "discussed ", i) && i + 10 < |s| && InGroup(p, s[i + 10]) then Some(i + 10) else None
    case About =>
      if Str.AtIgnoringCase(s, "about ", i) && i + 6 < |s| && InGroup(p, s[i + 6]) then Some(i + 6) else None
    case Topics =>
      if Str.AtIgnoringCase(s, "topics: ", i) && i + 8 < |s| && InGroup(p, s[i + 8]) then Some(i + 8)
      else if Str.AtIgnoringCase(s, "topic: ", i) && i + 7 < |s| && InGroup(p, s[i + 7]) then Some(i + 7)
      else None
  }

  /** The end of the greedy `[...]+` run that starts at index g. */
  function GroupEnd(p: Pattern, s: string, g: nat): (e: nat)
    requires g <= |s|
    ensures g <= e <= |s|
    ensures forall k :: g <= k < e ==> InGroup(p, s[k])
    ensures e == |s| || !InGroup(p, s[e])
    decreases |s| - g
  {
    if g < |s| && InGroup(p, s[g]) then GroupEnd(p, s, g + 1) else g
  }

  /** `summary.matchAll(pattern)` from index i: the capture of each leftmost match, the
      search resuming where the match ended. */
  function Captures(p: Pattern, s: string, i: nat): (r: seq<string>)
    ensures forall k :: 0 <= k < |r| ==> r[k] != "" && forall j :: 0 <= j < |r[k]| ==> InGroup(p, r[k][j])
    decreases |s| - i
  {
    if i >= |s| then []
    else
      match GroupStart(p, s, i)
      case None => Captures(p, s, i + 1)
      case Some(g) =>
        var e := GroupEnd(p, s, g);
        [s[g..e]] + Captures(p, s, e)
  }

  function TrimAll(ts: seq<string>): (r: seq<string>)
    ensures |r| == |ts| && forall k :: 0 <= k < |ts| ==> r[k] == Str.Trim(ts[k])
  {
    seq(|ts|, k requires 0 <= k < |ts| => Str.Trim(ts[k]))
  }

  /** Every trimmed capture, pattern by pattern. */
  function AllTopics(summary: string): seq<string> {
    TrimAll(Captures(Discussed, summary, 0) + Captures(Topics, summary, 0) + Captures(About, summary, 0))
  }

  /** `extractKeyTopics`: `[...new Set(topics)].slice(0, 5)`. */
  function KeyTopics(summary: string): seq<string> {
    Ranking.Take(Tally.FirstSeen(AllTopics(summary)), 5)
  }

  /** At most five distinct topics, each a trimmed capture, in the order they were first
      found, and five whenever five distinct ones were found. */
  lemma KeyTopicsProps(summary: string)
    ensures |KeyTopics(summary)| <= 5 && Tally.Distinct(KeyTopics(summary))
    ensures forall x :: x in KeyTopics(summary) ==> x in AllTopics(summary)
    ensures KeyTopics(summary) == Tally.FirstSeen(AllTopics(summary))[..|KeyTopics(summary)|]
    ensures |Tally.FirstSeen(AllTopics(summary))| >= 5 ==> |KeyTopics(summary)| == 5
    ensures forall x :: x in AllTopics(summary) && x !in KeyTopics(summary) ==> |KeyTopics(summary)| == 5
  {
    var all := AllTopics(summary);
    var d := Tally.FirstSeen(all);
    Tally.FirstSeenProps(all);
    var r := KeyTopics(summary);
    forall x | x in r ensures x in all {
      var k :| 0 <= k < |r| && r[k] == x;
      assert d[k] == x;
    }
    if |r| < 5 {
      assert r == d;
    }
  }

  /** A pattern that never matches gives no captures. */
  lemma {:induction false} CapturesNone(p: Pattern, s: string, i: nat)
    requires forall j :: i <= j < |s| ==> GroupStart(p, s, j).None?
    ensures Captures(p, s, i) == []
    decreases |s| - i
  {
    if i < |s| {
      CapturesNone(p, s, i + 1);
    }
  }

  /** A summary without any of the cues "discussed ", "topic: ", "topics: " and "about "
      (in any case) has no key topics. */
  lemma NoCueNoTopics(summary: string)
    requires forall j :: 0 <= j < |summary| ==>
      !Str.AtIgnoringCase(summary, "discussed ", j) && !Str.AtIgnoringCase(summary, "about ", j)
      && !Str.AtIgnoringCase(summary, "topics: ", j) && !Str.AtIgnoringCase(summary, "topic: ", j)
    ensures KeyTopics(summary) == []
  {
    CapturesNone(Discussed, summary, 0);
    CapturesNone(Topics, summary, 0);
    CapturesNone(About, summary, 0);
    assert AllTopics(summary) == [];
  }

  lemma LowerCue()
    ensures Str.Lower("discussed ") == "discussed "
  {
    var c := "discussed ";
    var l := Str.Lower(c);
    forall k | 0 <= k < 10 ensures l[k] == c[k] {
      assert l[k] == Str.LowerChar(c[k]);
    }
  }

  lemma CueMatches(w: string)
    requires w != "" && Str.IsWordChar(w[0])
    ensures GroupStart(Discussed, "discussed " + w, 0) == Some(10)
  {
    var s := "discussed " + w;
    assert s[0..10] == "discussed ";
    LowerCue();
    assert s[10] == w[0];
  }

  lemma {:induction false} GroupEndAll(p: Pattern, s: string, g: nat)
    requires g <= |s| && forall k :: g <= k < |s| ==> InGroup(p, s[k])
    ensures GroupEnd(p, s, g) == |s|
  {
  }

  /** "discussed " followed by one word captures exactly that word. */
  lemma DiscussedWord(w: string)
    requires w != "" && forall k :: 0 <= k < |w| ==> Str.IsWordChar(w[k])
    ensures Captures(Discussed, "discussed " + w, 0) == [w]
  {
    var s := "discussed " + w;
    CueMatches(w);
    WordRunToEnd(w);
    var rest := Captures(Discussed, s, |s|);
    assert Captures(Discussed, s, 0) == [s[10..|s|]] + rest;
    SliceAfter("discussed ", w);
  }

  lemma WordRunToEnd(w: string)
    requires forall k :: 0 <= k < |w| ==> Str.IsWordChar(w[k])
    ensures GroupEnd(Discussed, "discussed " + w, 10) == |"discussed " + w|
  {
    var s := "discussed " + w;
    assert forall k :: 10 <= k < |s| ==> s[k] == w[k - 10];
    GroupEndAll(Discussed, s, 10);
  }

  lemma SliceAfter(a: string, b: string)
    ensures (a + b)[|a|..|a + b|] == b
  {
  }

  // ------------------------------------------------------------------ scored hits

  datatype Kind = Semantic | Keyword | Recent

  /** The `type` (and `context`) tag of a hit. */
  function KindName(k: Kind): string {
    match k
    case Semantic => "semantic"
    case Keyword => "keyword"
    case Recent => "recent"
  }

  /** One sub-search result around the row it came from. */
  datatype Hit<T> = Hit(item: T, sessionId: string, similarity: real, relevance: real, kind: Kind)

  /** The `${sessionId}-${type}` key `removeDuplicates` remembers. */
  function HitKey<T>(h: Hit<T>): string {
    h.sessionId + "-" + KindName(h.kind)
  }

  /** The text key identifies the pair: the three tags end in different letters, so the
      tag and then the session id can be read back from the key. */
  lemma HitKeyInjective<T>(a: Hit<T>, b: Hit<T>)
    ensures HitKey(a) == HitKey(b) <==> a.sessionId == b.sessionId && a.kind == b.kind
  {
    if HitKey(a) == HitKey(b) {
      var ka, kb := KindName(a.kind), KindName(b.kind);
      assert HitKey(a)[|HitKey(a)| - 1] == ka[|ka| - 1];
      assert HitKey(b)[|HitKey(b)| - 1] == kb[|kb| - 1];
      assert a.kind == b.kind;
      assert |a.sessionId| == |b.sessionId|;
      assert HitKey(a)[..|a.sessionId|] == a.sessionId;
      assert HitKey(b)[..|b.sessionId|] == b.sessionId;
    }
  }

  /** The order of `.sort((a, b) => b.relevance - a.relevance)`. */
  function ByRelevance<T>(a: Hit<T>, b: Hit<T>): bool {
    a.relevance >= b.relevance
  }

  lemma ByRelevanceTotal<T(!new)>()
    ensures Ranking.TotalPreorder(ByRelevance<T>)
  {
  }

  /** A sub-search's tail: sorted by relevance, the first `limit` kept. */
  function Best<T>(hits: seq<Hit<T>>, limit: nat): seq<Hit<T>> {
    Ranking.Take(Ranking.SortBy(hits, ByRelevance), limit)
  }

  /** The best hits are at most `limit` of the candidates, all of them when they fit, in
      non-increasing relevance. */
  lemma BestProps<T(!new)>(hits: seq<Hit<T>>, limit: nat)
    ensures |Best(hits, limit)| == if limit < |hits| then limit else |hits|
    ensures forall i, j :: 0 <= i < j < |Best(hits, limit)| ==> Best(hits, limit)[i].relevance >= Best(hits, limit)[j].relevance
    ensures forall h :: h in Best(hits, limit) ==> h in hits
  {
    SortedByRelevance(hits);
    TakeOrdered(Ranking.SortBy(hits, ByRelevance), limit);
    TakeMembers(Ranking.SortBy(hits, ByRelevance), hits, limit);
  }

  lemma SortedByRelevance<T(!new)>(hits: seq<Hit<T>>)
    ensures Ranking.SortedBy(Ranking.SortBy(hits, ByRelevance), ByRelevance)
  {
    ByRelevanceTotal<T>();
    Ranking.SortBySorted(hits, ByRelevance);
  }

  lemma TakeOrdered<T>(sorted: seq<Hit<T>>, limit: nat)
    requires Ranking.SortedBy(sorted, ByRelevance)
    ensures forall i, j :: 0 <= i < j < |Ranking.Take(sorted, limit)| ==>
      Ranking.Take(sorted, limit)[i].relevance >= Ranking.Take(sorted, limit)[j].relevance
  {
    var r := Ranking.Take(sorted, limit);
    forall i, j | 0 <= i < j < |r| ensures r[i].relevance >= r[j].relevance {
      assert r[i] == sorted[i] && r[j] == sorted[j];
      assert ByRelevance(sorted[i], sorted[j]);
    }
  }

  lemma TakeMembers<T>(sorted: seq<Hit<T>>, hits: seq<Hit<T>>, limit: nat)
    requires multiset(sorted) == multiset(hits)
    ensures forall h :: h in Ranking.Take(sorted, limit) ==> h in hits
  {
    var r := Ranking.Take(sorted, limit);
    forall h | h in r ensures h in hits {
      var k :| 0 <= k < |r| && r[k] == h;
      assert sorted[k] == h;
      assert h in multiset(sorted);
    }
  }

  /** Semantic candidates: the rows with an embedding, scored by `sim`, weighted by 0.8,
      and kept when the similarity is above 0.3. */
  function SemanticCandidates<T>(rows: seq<T>, session: T -> string, embedded: T -> bool, sim: T -> real): (r: seq<Hit<T>>)
    ensures forall h :: h in r ==> h.kind == Semantic && h.similarity > 0.3 && h.relevance == 0.8 * h.similarity
    ensures forall h :: h in r ==> h.item in rows && embedded(h.item) && h.similarity == sim(h.item) && h.sessionId == session(h.item)
    ensures forall x :: x in rows && embedded(x) && sim(x) > 0.3 ==> Hit(x, session(x), sim(x), 0.8 * sim(x), Semantic) in r
    decreases |rows|
  {
    if rows == [] then []
    else
      assert rows == [rows[0]] + rows[1..];
      var x := rows[0];
      (if embedded(x) && sim(x) > 0.3 then [Hit(x, session(x), sim(x), 0.8 * sim(x), Semantic)] else [])
      + SemanticCandidates(rows[1..], session, embedded, sim)
  }

  const DAY_MS: real := 86400000.0

  /** `Math.max(0, 0.2 - daysSince * 0.01)`: fades from 0.2 to nothing over twenty days. */
  function RecencyBoost(now: int, createdAt: int): (r: real)
    ensures 0.0 <= r <= 0.2 || (now < createdAt && r > 0.2)
  {
    var days := (now - createdAt) as real / DAY_MS;
    if 0.2 - days * 0.01 > 0.0 then 0.2 - days * 0.01 else 0.0
  }

  /** 0.1 for every match of every term, plus the recency boost. */
  function KeywordRelevance(text: string, terms: seq<string>, now: int, createdAt: int): real {
    0.1 * (WordHits(text, terms) as real) + RecencyBoost(now, createdAt)
  }

  /** A row clears the 0.05 keyword threshold exactly when some term matches its text or it
      is less than fifteen days old. */
  lemma KeywordThreshold(text: string, terms: seq<string>, now: int, createdAt: int)
    ensures KeywordRelevance(text, terms, now, createdAt) > 0.05 <==>
      WordHits(text, terms) > 0 || ((now - createdAt) as real) < 15.0 * DAY_MS
  {
    var x := (now - createdAt) as real;
    var days := x / DAY_MS;
    assert days * DAY_MS == x;
    assert 0.2 - days * 0.01 > 0.05 <==> days < 15.0;
    ScaleBelow(days, 15.0, DAY_MS);
  }

  lemma ScaleBelow(x: real, t: real, m: real)
    requires m > 0.0
    ensures x < t <==> x * m < t * m
  {
    assert t * m - x * m == (t - x) * m;
  }

  /** Keyword candidates: each row scored against the terms (its similarity is its
      relevance), kept above 0.05. */
  function KeywordCandidates<T>(rows: seq<T>, session: T -> string, text: T -> string, created: T -> int,
                                terms: seq<string>, now: int): (r: seq<Hit<T>>)
    ensures forall h :: h in r ==> h.kind == Keyword && h.relevance > 0.05 && h.similarity == h.relevance
    ensures forall h :: h in r ==>
      (h.item in rows && h.sessionId == session(h.item)
       && h.relevance == KeywordRelevance(text(h.item), terms, now, created(h.item)))
    ensures forall x :: x in rows && KeywordRelevance(text(x), terms, now, created(x)) > 0.05 ==>
      var v := KeywordRelevance(text(x), terms, now, created(x));
      Hit(x, session(x), v, v, Keyword) in r
    decreases |rows|
  {
    if rows == [] then []
    else
      assert rows == [rows[0]] + rows[1..];
      var x := rows[0];
      var v := KeywordRelevance(text(x), terms, now, created(x));
      (if v > 0.05 then [Hit(x, session(x), v, v, Keyword)] else [])
      + KeywordCandidates(rows[1..], session, text, created, terms, now)
  }

  /** Recent rows, all with similarity and relevance 0.5, in their order. */
  function RecentHits<T>(rows: seq<T>, session: T -> string): (r: seq<Hit<T>>)
    ensures |r| == |rows|
    ensures forall k :: 0 <= k < |r| ==> r[k] == Hit(rows[k], session(rows[k]), 0.5, 0.5, Recent)
  {
    seq(|rows|, k requires 0 <= k < |rows| => Hit(rows[k], session(rows[k]), 0.5, 0.5, Recent))
  }

  /** `Math.ceil(n / d)`. */
  function Ceil(n: nat, d: nat): (r: nat)
    requires d > 0
    ensures r * d >= n && (r == 0 || (r - 1) * d < n)
  {
    (n + d - 1) / d
  }

  /** The merged list: de-duplicated by `HitKey`, sorted by relevance, cut to `limit`. */
  function Rank<T>(results: seq<Hit<T>>, limit: nat): seq<Hit<T>> {
    Best(Dedupe.ByKey(results, HitKey), limit)
  }

  /** At most `limit` results, in non-increasing relevance, one per (session, tag) pair,
      each one of the merged hits, and none only when there was nothing to rank. */
  lemma RankProps<T(!new)>(results: seq<Hit<T>>, limit: nat)
    ensures |Rank(results, limit)| <= limit
    ensures forall i, j :: 0 <= i < j < |Rank(results, limit)| ==> Rank(results, limit)[i].relevance >= Rank(results, limit)[j].relevance
    ensures forall i, j :: 0 <= i < j < |Rank(results, limit)| ==>
      Rank(results, limit)[i].sessionId != Rank(results, limit)[j].sessionId || Rank(results, limit)[i].kind != Rank(results, limit)[j].kind
    ensures forall h :: h in Rank(results, limit) ==> h in results
    ensures Rank(results, limit) == [] <==> limit == 0 || results == []
  {
    var unique := Dedupe.ByKey(results, HitKey);
    Dedupe.ByKeyProps(results, HitKey);
    BestProps(unique, limit);
    var sorted := Ranking.SortBy(unique, ByRelevance);
    Dedupe.SortByDistinct(unique, ByRelevance, HitKey);
    var r := Rank(results, limit);
    assert r == sorted[..|r|];
    forall i, j | 0 <= i < j < |r| ensures r[i].sessionId != r[j].sessionId || r[i].kind != r[j].kind {
      assert r[i] == sorted[i] && r[j] == sorted[j];
      HitKeyInjective(r[i], r[j]);
    }
    forall h | h in r ensures h in results {
      Dedupe.SubseqIn(unique, results, h);
    }
    if results != [] {
      assert HitKey(results[0]) in Dedupe.KeySet(results, HitKey);
      assert unique != [];
    }
  }
}
