/** The AIConversation domain entity: a chat session's messages with an optional
    embedding and metadata. Times are milliseconds since the epoch; reading the clock and
    parsing or printing dates happen outside the model. */
module ConversationEntity {
  import opened Wrappers
  import Str

  datatype Role = System | User | Assistant

  /** The role as it is written in a stored message. */
  function RoleName(r: Role): string {
    match r
    case System => "system"
    case User => "user"
    case Assistant => "assistant"
  }

  datatype ChatMessage = ChatMessage(role: Role, content: string, timestamp: Option<string>)

  /** The optional metadata fields the services set. */
  datatype Metadata = Metadata(
    module_: Option<string>, model: Option<string>, createdVia: Option<string>,
    messageCount: Option<int>, lastInteraction: Option<string>)

  datatype Conversation = Conversation(
    id: string, sessionId: string, userId: Option<string>,
    messages: seq<ChatMessage>, embedding: Option<seq<real>>,
    metadata: Option<Metadata>, createdAt: int)

  /** A row of the conversations table; created_at is already a time. */
  datatype Record = Record(
    id: string, session_id: string, user_id: Option<string>,
    messages: seq<ChatMessage>, embedding: Option<seq<real>>,
    metadata: Option<Metadata>, created_at: int)

  /** `fromDatabase`: the snake_case columns under their camelCase names. */
  function FromDatabase(record: Record): (c: Conversation)
    ensures c.sessionId == record.session_id && c.userId == record.user_id
    ensures c.createdAt == record.created_at
    ensures c.id == record.id && c.messages == record.messages
    ensures c.embedding == record.embedding && c.metadata == record.metadata
  {
    Conversation(record.id, record.session_id, record.user_id, record.messages,
                 record.embedding, record.metadata, record.created_at)
  }

  /** `createNew`: the database assigns the id later, so it starts empty; a missing or
      empty user id becomes null, and so do a missing embedding and missing metadata (an
      array or object that is passed is always truthy and kept, even when empty). */
  function CreateNew(sessionId: string, messages: seq<ChatMessage>, userId: Option<string>,
                     embedding: Option<seq<real>>, metadata: Option<Metadata>, now: int): (c: Conversation)
    ensures c.id == "" && c.sessionId == sessionId && c.messages == messages
    ensures c.userId.None? <==> userId.None? || userId.value == ""
    ensures c.userId.Some? ==> c.userId == userId
    ensures c.embedding == embedding && c.metadata == metadata
    ensures c.createdAt == now
  {
    Conversation("", sessionId, if userId.Some? && userId.value != "" then userId else None,
                 messages, embedding, metadata, now)
  }

  function Contents(messages: seq<ChatMessage>): (r: seq<string>)
    ensures |r| == |messages|
    ensures forall i :: 0 <= i < |messages| ==> r[i] == messages[i].content
  {
    seq(|messages|, i requires 0 <= i < |messages| => messages[i].content)
  }

  /** `getMessageText`: the contents joined with single spaces, in order. */
  function MessageText(c: Conversation): string {
    Str.Join(Contents(c.messages), " ")
  }

  function TotalLength(parts: seq<string>): nat
    decreases |parts|
  {
    if parts == [] then 0 else |parts[0]| + TotalLength(parts[1..])
  }

  lemma {:induction false} JoinLength(parts: seq<string>, sep: string)
    requires parts != []
    ensures |Str.Join(parts, sep)| == TotalLength(parts) + (|parts| - 1) * |sep|
    decreases |parts|
  {
    if |parts| > 1 {
      JoinLength(parts[1..], sep);
    }
  }

  /** The text holds every content in order with one space between neighbours: it is
      as long as the contents together plus the separators, and when no content holds a
      space, splitting it at spaces gives the contents back. */
  lemma MessageTextProps(c: Conversation)
    ensures c.messages == [] ==> MessageText(c) == ""
    ensures c.messages != [] ==> |MessageText(c)| == TotalLength(Contents(c.messages)) + |c.messages| - 1
    ensures c.messages != [] && (forall i :: 0 <= i < |c.messages| ==> ' ' !in c.messages[i].content) ==>
      Str.SplitOn(MessageText(c), ' ') == Contents(c.messages)
  {
    var parts := Contents(c.messages);
    if c.messages != [] {
      JoinLength(parts, " ");
      if forall i :: 0 <= i < |c.messages| ==> ' ' !in c.messages[i].content {
        assert [' '] == " ";
        Str.SplitOnJoin(parts, ' ');
      }
    }
  }

  /** `getMessageCount`. */
  function MessageCount(c: Conversation): nat { |c.messages| }

  /** The response shape; createdAt stays a time rather than its ISO text. */
  datatype ConversationJson = ConversationJson(
    id: string, sessionId: string, userId: Option<string>,
    messages: seq<ChatMessage>, embedding: Option<seq<real>>,
    metadata: Option<Metadata>, createdAt: int, messageCount: nat)

  function ToJson(c: Conversation): ConversationJson {
    ConversationJson(c.id, c.sessionId, c.userId, c.messages, c.embedding, c.metadata,
                     c.createdAt, MessageCount(c))
  }

  /** The response's messageCount agrees with the messages it carries, and the rest of it
      gives the conversation back. */
  lemma ToJsonProps(c: Conversation)
    ensures ToJson(c).messageCount == |ToJson(c).messages| == MessageCount(c)
    ensures var j := ToJson(c);
      Conversation(j.id, j.sessionId, j.userId, j.messages, j.embedding, j.metadata, j.createdAt) == c
  {
  }

  /** A conversation created now and stored reads back with the same session, messages
      and count once the database has filled in the id. */
  lemma CreateStoreRead(sessionId: string, messages: seq<ChatMessage>, userId: Option<string>,
                        embedding: Option<seq<real>>, metadata: Option<Metadata>, now: int, id: string)
    ensures var c := CreateNew(sessionId, messages, userId, embedding, metadata, now);
      var back := FromDatabase(Record(id, c.sessionId, c.userId, c.messages, c.embedding, c.metadata, c.createdAt));
      && back.sessionId == sessionId && back.messages == messages && back.id == id
      && MessageCount(back) == |messages|
      && MessageText(back) == Str.Join(Contents(messages), " ")
  {
  }
}
