/**
 * The `/api/chat` endpoint of backend/app/main.py: continue the conversation
 * the request names, or start a new one, and send the message.
 *
 * The process-wide chat service is passed in as `svc`. A `ValueError` from
 * the service becomes a 404 response carrying its text.
 */
module ChatEndpoint {
  import opened Wrappers
  import opened Documents
  import opened LlmService
  import opened Chat

  const NOT_FOUND_STATUS: nat := 404

  /** The body of a chat request. */
  datatype ChatRequest = ChatRequest(message: string, conversationId: Option<string>)

  /** What the endpoint answers: the service's reply, or an HTTP error. */
  datatype ChatOutcome = Answer(reply: SendReply) | HttpError(status: nat, detail: string)

  /** `if request.conversation_id:` holds for an identifier that is present and not empty. */
  predicate Continues(request: ChatRequest) {
    request.conversationId.Some? && request.conversationId.value != ""
  }

  /** The service's answer to one request, as the endpoint returns it. */
  function ToHttp(r: Result<SendReply>): (o: ChatOutcome)
    ensures r.Ok? <==> o.Answer?
    ensures r.Ok? ==> o.reply == r.value
    ensures r.Err? ==> o == HttpError(NOT_FOUND_STATUS, r.error)
  {
    match r
    case Ok(reply) => Answer(reply)
    case Err(e) => HttpError(NOT_FOUND_STATUS, e)
  }

  /**
   * `chat_with_llm`. A request naming a conversation behaves as `send_message`
   * on it, an unknown one giving 404. A request naming none starts a
   * conversation without context, so the model sees just the welcome message
   * and the stored conversation ends up with three messages.
   */
  method ChatWithLlm(svc: ChatService, request: ChatRequest, freshId: string,
                     welcomeTime: Time, userTime: Time, replyTime: Time,
                     dumps: Json -> Result<string>, complete: seq<PromptMessage> -> ModelOutcome)
    returns (o: ChatOutcome)
    requires svc.Valid()
    requires !Continues(request) ==> freshId !in svc.store.conversations
    modifies svc, svc.store
    ensures svc.Valid()
    ensures svc.analysisContext == old(svc.analysisContext)
    ensures Continues(request) ==>
              var id := request.conversationId.value;
              && svc.store.order == old(svc.store.order)
              && (id !in old(svc.store.conversations) ==>
                    o == HttpError(NOT_FOUND_STATUS, INVALID_ID)
                    && svc.store.conversations == old(svc.store.conversations))
              && (id in old(svc.store.conversations) ==>
                    var prior := old(svc.store.conversations)[id];
                    var reply := TurnReply(request.message, prior, svc.ContextOf(id), dumps, complete);
                    && svc.store.conversations ==
                       old(svc.store.conversations)[id := prior + [ChatMessage(USER, request.message, Some(userTime)),
                                                                   ChatMessage(ASSISTANT, reply, Some(replyTime))]]
                    && o == Answer(SendReply(reply, id, |prior| + 3)))
    ensures !Continues(request) ==>
              var welcome := ChatMessage(ASSISTANT, WELCOME, Some(welcomeTime));
              var reply := TurnReply(request.message, [welcome], None, dumps, complete);
              && svc.store.order == old(svc.store.order) + [freshId]
              && svc.store.conversations ==
                 old(svc.store.conversations)[freshId := [welcome,
                                                          ChatMessage(USER, request.message, Some(userTime)),
                                                          ChatMessage(ASSISTANT, reply, Some(replyTime))]]
              && o == Answer(SendReply(reply, freshId, 4))
  {
    var r;
    if Continues(request) {
      r := svc.SendMessage(request.conversationId.value, request.message, dumps, complete, userTime, replyTime);
    } else {
      ghost var before := svc.store.conversations;
      var id := svc.StartConversation(None, freshId, welcomeTime);
      assert svc.ContextOf(id) == None;
      ghost var welcome := [ChatMessage(ASSISTANT, WELCOME, Some(welcomeTime))];
      r := svc.SendMessage(id, request.message, dumps, complete, userTime, replyTime);
      ghost var turns := [ChatMessage(USER, request.message, Some(userTime)),
                          ChatMessage(ASSISTANT, r.value.response, Some(replyTime))];
      assert svc.store.conversations == before[id := welcome][id := welcome + turns];
      assert welcome + turns == [welcome[0], turns[0], turns[1]];
    }
    o := ToHttp(r);
  }
}
