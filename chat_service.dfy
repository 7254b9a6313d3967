/**
 * The in-memory conversation store and the chat service of
 * backend/app/services/chat_service.py.
 *
 * `uuid.uuid4()` is replaced by an identifier the caller supplies, required to
 * be fresh; `datetime.now()` by a timestamp the caller supplies. The language
 * model and `json.dumps` are the oracles of module LlmService.
 */
module Chat {
  import opened Wrappers
  import opened Documents
  import opened LlmService

  const USER: string := "user"
  const ASSISTANT: string := "assistant"
  const WELCOME: string :=
    "Hello! I'm here to help you analyze your requirements and design documents. Feel free to ask questions about the analysis, gaps, or recommendations."
  /** The text of the `ValueError` raised for an unknown conversation. */
  const INVALID_ID: string := "Invalid conversation ID"
  const RESPONSE_ERROR_PREFIX: string := "Error generating response: "

  /** What `get_conversation_summary` returns. */
  datatype ConversationSummary = ConversationSummary(conversationId: string, messageCount: nat,
                                                     createdAt: Option<Time>, lastMessage: Option<Time>)

  /** What `send_message` returns. */
  datatype SendReply = SendReply(response: string, conversationId: string, messageCount: nat)

  /** An entry of `get_conversation_history`. */
  datatype HistoryEntry = HistoryEntry(role: string, content: string, timestamp: Option<Time>)

  /** The summary of a conversation holding `messages`. */
  function Summarize(id: string, messages: seq<ChatMessage>): ConversationSummary {
    ConversationSummary(id, |messages|,
                        if messages == [] then None else messages[0].timestamp,
                        if messages == [] then None else messages[|messages| - 1].timestamp)
  }

  /**
   * Appending a message adds one to the count, makes its timestamp the last
   * one, and leaves the creation time alone unless the conversation was empty.
   */
  lemma SummaryAfterAppend(id: string, messages: seq<ChatMessage>, m: ChatMessage)
    ensures Summarize(id, messages + [m]).messageCount == Summarize(id, messages).messageCount + 1
    ensures Summarize(id, messages + [m]).lastMessage == m.timestamp
    ensures Summarize(id, messages + [m]).createdAt ==
            (if messages == [] then m.timestamp else Summarize(id, messages).createdAt)
  {
  }

  /** The text `send_message` stores and returns as the assistant's turn. */
  function TurnReply(message: string, prior: seq<ChatMessage>, context: Option<Json>,
                     dumps: Json -> Result<string>, complete: seq<PromptMessage> -> ModelOutcome): string
  {
    TurnText(ChatReply(message, prior, context, dumps, complete))
  }

  /** The `try`/`except` around `chat_conversation`: a raised error becomes the turn's text. */
  function TurnText(outcome: Result<string>): string {
    match outcome
    case Ok(text) => text
    case Err(e) => RESPONSE_ERROR_PREFIX + e
  }

  /**
   * The assistant's turn is the model's reply when it answers; when the model
   * fails it is "Error in chat: ...", and when the context cannot be rendered
   * it is "Error generating response: ...". No failure escapes.
   */
  lemma TurnReplyCases(message: string, prior: seq<ChatMessage>, context: Option<Json>,
                       dumps: Json -> Result<string>, complete: seq<PromptMessage> -> ModelOutcome)
    ensures var ms := ChatMessages(message, prior, context, dumps);
            var reply := TurnReply(message, prior, context, dumps, complete);
            && (ms.Ok? && complete(ms.value).Reply? ==> reply == complete(ms.value).text)
            && (ms.Ok? && complete(ms.value).Failure? ==> reply == CHAT_ERROR_PREFIX + complete(ms.value).error)
            && (ms.Err? ==> reply == RESPONSE_ERROR_PREFIX + ms.error)
  {
  }

  /** The `try` block of `send_message` around `chat_conversation`. */
  method AssistantTurn(message: string, prior: seq<ChatMessage>, context: Option<Json>,
                 dumps: Json -> Result<string>, complete: seq<PromptMessage> -> ModelOutcome)
    returns (text: string)
    ensures text == TurnReply(message, prior, context, dumps, complete)
  {
    var outcome := ChatConversation(message, prior, context, dumps, complete);
    text := TurnText(outcome);
  }

  /** `ConversationStore`: a dictionary from conversation id to its messages. */
  class ConversationStore {
    var conversations: map<string, seq<ChatMessage>>
    /** The keys of the dictionary in insertion order, the order Python iterates them in. */
    var order: seq<string>

    ghost predicate Valid()
      reads this
    {
      && (forall i, j :: 0 <= i < j < |order| ==> order[i] != order[j])
      && (forall id :: id in conversations <==> id in order)
    }

    constructor ()
      ensures Valid() && conversations == map[] && order == []
    {
      conversations := map[];
      order := [];
    }

    /** `create_conversation`: the fresh id starts with no messages; every other conversation is untouched. */
    method CreateConversation(freshId: string) returns (id: string)
      requires Valid() && freshId !in conversations
      modifies this
      ensures Valid()
      ensures id == freshId
      ensures conversations == old(conversations)[id := []]
      ensures order == old(order) + [id]
    {
      id := freshId;
      conversations := conversations[id := []];
      order := order + [id];
    }

    /** `add_message`: appends one message to a known conversation; an unknown id changes nothing. */
    method AddMessage(id: string, role: string, content: string, now: Time) returns (ok: bool)
      modifies this
      ensures ok <==> id in old(conversations)
      ensures ok ==> conversations == old(conversations)[id := old(conversations)[id] + [ChatMessage(role, content, Some(now))]]
      ensures !ok ==> conversations == old(conversations)
      ensures order == old(order)
    {
      if id !in conversations {
        return false;
      }
      conversations := conversations[id := conversations[id] + [ChatMessage(role, content, Some(now))]];
      ok := true;
    }

    /** `get_conversation`: the stored messages, or none for an unknown id (which is not inserted). */
    function GetConversation(id: string): (ms: seq<ChatMessage>)
      reads this
      ensures id in conversations ==> ms == conversations[id]
      ensures id !in conversations ==> ms == []
    {
      if id in conversations then conversations[id] else []
    }

    /** `get_conversation_summary`. */
    function GetConversationSummary(id: string): (s: ConversationSummary)
      reads this
      ensures s.conversationId == id
      ensures s.messageCount == |GetConversation(id)|
      ensures s.createdAt == (if GetConversation(id) == [] then None else GetConversation(id)[0].timestamp)
      ensures s.lastMessage == (if GetConversation(id) == [] then None
                                else GetConversation(id)[|GetConversation(id)| - 1].timestamp)
    {
      Summarize(id, GetConversation(id))
    }
  }

  /** `ChatService`: the store plus the analysis context recorded per conversation. */
  class ChatService {
    const store: ConversationStore
    var analysisContext: map<string, Json>

    ghost predicate Valid()
      reads this, store
    {
      store.Valid() && analysisContext.Keys <= store.conversations.Keys
    }

    constructor ()
      ensures Valid() && fresh(store)
      ensures store.conversations == map[] && store.order == [] && analysisContext == map[]
    {
      store := new ConversationStore();
      analysisContext := map[];
    }

    /** `self.analysis_context.get(conversation_id)`. */
    function ContextOf(id: string): (c: Option<Json>)
      reads this
      ensures c.Some? <==> id in analysisContext
      ensures c.Some? ==> c.value == analysisContext[id]
    {
      if id in analysisContext then Some(analysisContext[id]) else None
    }

    /**
     * `start_conversation`: the new conversation holds exactly the welcome message;
     * the context is recorded only when it is truthy.
     */
    method StartConversation(context: Option<Json>, freshId: string, now: Time) returns (id: string)
      requires Valid() && freshId !in store.conversations
      modifies this, store
      ensures Valid()
      ensures id == freshId
      ensures store.conversations == old(store.conversations)[id := [ChatMessage(ASSISTANT, WELCOME, Some(now))]]
      ensures store.order == old(store.order) + [id]
      ensures analysisContext == if context.Some? && Truthy(context.value)
                                 then old(analysisContext)[id := context.value]
                                 else old(analysisContext)
    {
      id := store.CreateConversation(freshId);
      if context.Some? && Truthy(context.value) {
        analysisContext := analysisContext[id := context.value];
      }
      var added := store.AddMessage(id, ASSISTANT, WELCOME, now);
      assert [] + [ChatMessage(ASSISTANT, WELCOME, Some(now))] == [ChatMessage(ASSISTANT, WELCOME, Some(now))];
    }

    /**
     * `send_message`. An unknown id raises and changes nothing. Otherwise the
     * user turn and then the assistant turn are appended; the model is shown
     * the history as it was before the user turn; and since `history` is the
     * stored list itself, the count returned is the new stored length plus one.
     */
    method SendMessage(id: string, message: string, dumps: Json -> Result<string>,
                       complete: seq<PromptMessage> -> ModelOutcome, userTime: Time, replyTime: Time)
      returns (r: Result<SendReply>)
      requires Valid()
      modifies store
      ensures Valid()
      ensures store.order == old(store.order)
      ensures id !in old(store.conversations) ==> r == Err(INVALID_ID) && store.conversations == old(store.conversations)
      ensures id in old(store.conversations) ==>
                var prior := old(store.conversations)[id];
                var reply := TurnReply(message, prior, ContextOf(id), dumps, complete);
                && store.conversations == old(store.conversations)[id := prior + [ChatMessage(USER, message, Some(userTime)),
                                                                                  ChatMessage(ASSISTANT, reply, Some(replyTime))]]
                && r == Ok(SendReply(reply, id, |prior| + 3))
    {
      if id !in store.conversations {
        return Err(INVALID_ID);
      }
      var reply := Exchange(id, message, ContextOf(id), dumps, complete, userTime, replyTime);
      r := Ok(reply);
    }

    /** The body of `send_message` for a known conversation. */
    method Exchange(id: string, message: string, context: Option<Json>, dumps: Json -> Result<string>,
                    complete: seq<PromptMessage> -> ModelOutcome, userTime: Time, replyTime: Time)
      returns (reply: SendReply)
      requires id in store.conversations
      modifies store
      ensures store.order == old(store.order)
      ensures var prior := old(store.conversations)[id];
              var text := TurnReply(message, prior, context, dumps, complete);
              && store.conversations == old(store.conversations)[id := prior + [ChatMessage(USER, message, Some(userTime)),
                                                                                ChatMessage(ASSISTANT, text, Some(replyTime))]]
              && reply == SendReply(text, id, |prior| + 3)
    {
      ghost var before := store.conversations;
      ghost var prior := before[id];
      var added := store.AddMessage(id, USER, message, userTime);
      var history := store.conversations[id];
      assert history[..|history| - 1] == prior;
      var text := AssistantTurn(message, history[..|history| - 1], context, dumps, complete);
      added := store.AddMessage(id, ASSISTANT, text, replyTime);
      // `history` aliases the stored list, so it now also holds the assistant turn.
      history := store.conversations[id];
      assert history == prior + [ChatMessage(USER, message, Some(userTime)), ChatMessage(ASSISTANT, text, Some(replyTime))];
      assert store.conversations == before[id := history];
      reply := SendReply(text, id, |history| + 1);
    }

    /** `get_conversation_history`: role, content and timestamp of every stored message, in order. */
    function GetConversationHistory(id: string): (h: seq<HistoryEntry>)
      reads this, store
      ensures |h| == |store.GetConversation(id)|
      ensures forall k :: 0 <= k < |h| ==>
                && h[k].role == store.GetConversation(id)[k].role
                && h[k].content == store.GetConversation(id)[k].content
                && h[k].timestamp == store.GetConversation(id)[k].timestamp
    {
      var ms := store.GetConversation(id);
      seq(|ms|, k requires 0 <= k < |ms| => HistoryEntry(ms[k].role, ms[k].content, ms[k].timestamp))
    }

    /** `get_conversations_list`: one summary per stored conversation, in insertion order. */
    method GetConversationsList() returns (list: seq<ConversationSummary>)
      requires Valid()
      ensures |list| == |store.order|
      ensures forall k :: 0 <= k < |list| ==> list[k] == store.GetConversationSummary(store.order[k])
      ensures forall id :: id in store.conversations <==> exists k :: 0 <= k < |list| && list[k].conversationId == id
    {
      list := [];
      for k := 0 to |store.order|
        invariant |list| == k
        invariant forall j :: 0 <= j < k ==> list[j] == store.GetConversationSummary(store.order[j])
      {
        var summary := store.GetConversationSummary(store.order[k]);
        list := list + [summary];
      }
      forall id | id in store.conversations
        ensures exists k :: 0 <= k < |list| && list[k].conversationId == id
      {
        var k :| 0 <= k < |store.order| && store.order[k] == id;
        assert list[k].conversationId == id;
      }
    }
  }
}
