/**
 * What backend/app/services/llm_service.py computes around its two calls to the
 * language-model provider: the message list of a chat turn (`chat_conversation`)
 * and the summary and per-requirement projection handed to the model for
 * improved feedback (`generate_improved_feedback`).
 *
 * The provider call itself is an oracle passed in by the caller: a function from
 * what is sent to a `ModelOutcome`, so that it may answer differently on every call.
 * `json.dumps` is an oracle too; an error from it is the exception it raises.
 */
module LlmService {
  import opened Wrappers
  import opened Documents

  /** A timestamp from `datetime.now()`; only its identity matters here. */
  type Time = nat

  /** `ChatMessage` of llm_service.py: the timestamp is optional. */
  datatype ChatMessage = ChatMessage(role: string, content: string, timestamp: Option<Time>)

  /** One `{"role": ..., "content": ...}` entry of the list sent to the provider. */
  datatype PromptMessage = PromptMessage(role: string, content: string)

  /** What the provider call does: returns the reply text, or raises with an error text. */
  datatype ModelOutcome = Reply(text: string) | Failure(error: string)

  const CHAT_SYSTEM_PROMPT: string :=
    "You are a helpful assistant for software requirements and design analysis. You have access to the current analysis context and can answer questions about requirements, design, and recommendations."
  const FEEDBACK_SYSTEM_PROMPT: string :=
    "You are a software architecture expert specializing in requirements analysis and design validation."
  /** How many stored messages a chat turn sends along. */
  const HISTORY_WINDOW: nat := 10
  const CONTEXT_HEADER: string := "\nCurrent Analysis Context: "
  const CHAT_ERROR_PREFIX: string := "Error in chat: "
  const FEEDBACK_ERROR_PREFIX: string := "Error generating feedback: "
  /** The text of the `ZeroDivisionError` Python raises for a division by zero. */
  const ZERO_DIVISION: string := "division by zero"

  /** The text a provider call yields to its caller: a failure is turned into a message, never raised. */
  function ReplyText(outcome: ModelOutcome, errorPrefix: string): string {
    match outcome
    case Reply(text) => text
    case Failure(e) => errorPrefix + e
  }

  // ---------------------------------------------------------------------
  // chat_conversation
  // ---------------------------------------------------------------------

  function Min(a: nat, b: nat): nat {
    if a <= b then a else b
  }

  /** `conversation_history[-10:]`. */
  function Window(history: seq<ChatMessage>): seq<ChatMessage>
  {
    if |history| <= HISTORY_WINDOW then history else history[|history| - HISTORY_WINDOW..]
  }

  function ToPrompt(m: ChatMessage): PromptMessage {
    PromptMessage(m.role, m.content)
  }

  /** The `{"role": msg.role, "content": msg.content}` entries of some stored messages. */
  function Project(hs: seq<ChatMessage>): seq<PromptMessage>
  {
    seq(|hs|, k requires 0 <= k < |hs| => ToPrompt(hs[k]))
  }

  /** The content of the final user entry: the message, followed by the rendered context when that is truthy. */
  function UserContent(message: string, context: Option<Json>, dumps: Json -> Result<string>): Result<string> {
    if context.Some? && Truthy(context.value) then
      match dumps(context.value)
      case Ok(text) => Ok(message + CONTEXT_HEADER + text)
      case Err(e) => Err(e)
    else
      Ok(message)
  }

  /** The list sent to the provider for one chat turn. */
  function ChatMessages(message: string, history: seq<ChatMessage>, context: Option<Json>,
                        dumps: Json -> Result<string>): Result<seq<PromptMessage>>
  {
    match UserContent(message, context, dumps)
    case Err(e) => Err(e)
    case Ok(content) =>
      var w := Window(history);
      Ok([PromptMessage("system", CHAT_SYSTEM_PROMPT)]
         + Project(w)
         + [PromptMessage("user", content)])
  }

  /** What `chat_conversation` returns (`Ok`) or raises (`Err`, only from rendering the context). */
  function ChatReply(message: string, history: seq<ChatMessage>, context: Option<Json>,
                     dumps: Json -> Result<string>, complete: seq<PromptMessage> -> ModelOutcome): Result<string>
  {
    match ChatMessages(message, history, context, dumps)
    case Err(e) => Err(e)
    case Ok(messages) => Ok(ReplyText(complete(messages), CHAT_ERROR_PREFIX))
  }

  /**
   * The message list opens with the fixed system entry, then holds the last
   * min(10, |history|) stored messages in order with role and content copied,
   * and closes with the user entry; so it has between 2 and 12 entries.
   */
  lemma MessageListShape(message: string, history: seq<ChatMessage>, context: Option<Json>,
                         dumps: Json -> Result<string>)
    requires ChatMessages(message, history, context, dumps).Ok?
    ensures var ms := ChatMessages(message, history, context, dumps).value;
            var w := Min(HISTORY_WINDOW, |history|);
            && |ms| == w + 2
            && 2 <= |ms| <= 12
            && ms[0] == PromptMessage("system", CHAT_SYSTEM_PROMPT)
            && ms[|ms| - 1] == PromptMessage("user", UserContent(message, context, dumps).value)
            && ms[1..|ms| - 1] == Project(history[|history| - w..])
  {
    var ms := ChatMessages(message, history, context, dumps).value;
    assert ms[1..|ms| - 1] == Project(Window(history));
  }

  /** The user entry carries the context only when the context is truthy; otherwise it is the message unchanged. */
  lemma UserContentCases(message: string, context: Option<Json>, dumps: Json -> Result<string>)
    ensures !(context.Some? && Truthy(context.value)) ==> UserContent(message, context, dumps) == Ok(message)
    ensures context.Some? && Truthy(context.value) && dumps(context.value).Ok? ==>
              UserContent(message, context, dumps) == Ok(message + CONTEXT_HEADER + dumps(context.value).value)
  {
  }

  /**
   * A failed provider call is never raised by `chat_conversation`: it becomes
   * the reply "Error in chat: ...". Only rendering the context can raise.
   */
  lemma ChatFailureIsReply(message: string, history: seq<ChatMessage>, context: Option<Json>,
                           dumps: Json -> Result<string>, complete: seq<PromptMessage> -> ModelOutcome)
    ensures ChatReply(message, history, context, dumps, complete).Err? <==>
              context.Some? && Truthy(context.value) && dumps(context.value).Err?
    ensures ChatMessages(message, history, context, dumps).Ok? &&
            complete(ChatMessages(message, history, context, dumps).value).Failure? ==>
              ChatReply(message, history, context, dumps, complete) ==
              Ok(CHAT_ERROR_PREFIX + complete(ChatMessages(message, history, context, dumps).value).error)
  {
  }

  /** `chat_conversation`: builds the message list entry by entry, then calls the provider. */
  method ChatConversation(message: string, history: seq<ChatMessage>, context: Option<Json>,
                          dumps: Json -> Result<string>, complete: seq<PromptMessage> -> ModelOutcome)
    returns (r: Result<string>)
    ensures r == ChatReply(message, history, context, dumps, complete)
  {
    var messages := [PromptMessage("system", CHAT_SYSTEM_PROMPT)];
    var recent := Window(history);
    for k := 0 to |recent|
      invariant |messages| == k + 1
      invariant messages[0] == PromptMessage("system", CHAT_SYSTEM_PROMPT)
      invariant messages[1..] == Project(recent[..k])
    {
      messages := messages + [PromptMessage(recent[k].role, recent[k].content)];
    }
    var content := message;
    if context.Some? && Truthy(context.value) {
      var rendered := dumps(context.value);
      if rendered.Err? {
        return Err(rendered.error);
      }
      content := message + CONTEXT_HEADER + rendered.value;
    }
    messages := messages + [PromptMessage("user", content)];
    assert messages == ChatMessages(message, history, context, dumps).value;
    var outcome := complete(messages);
    r := Ok(ReplyText(outcome, CHAT_ERROR_PREFIX));
  }

  // ---------------------------------------------------------------------
  // generate_improved_feedback
  // ---------------------------------------------------------------------

  /**
   * One entry of `semantic_analysis` as this service reads it: the keys it
   * reads with `.get` may be absent (`None`).
   */
  datatype AnalysisItem = AnalysisItem(requirement: string, coverage: string, similarityScore: real,
                                       matchedDesignItems: Option<seq<string>>, issue: Option<string>)

  /** One entry of `detailed_analysis`. */
  datatype DetailedItem = DetailedItem(requirement: string, status: string, similarityScore: real,
                                       matchedDesignItems: seq<string>, issue: string)

  /**
   * What the feedback prompt tells the model. The prompt's text layout and the
   * formatting of its numbers are not modelled; its content is.
   */
  datatype FeedbackPrompt = FeedbackPrompt(
    totalRequirements: nat, totalDesignItems: nat,
    coveredRequirements: nat, missingRequirements: nat,
    coveragePercentage: real,
    requirements: seq<string>, design: seq<string>,
    detailedAnalysis: seq<DetailedItem>)

  /** `sum(1 for r in items if r["coverage"] == verdict)`. */
  function CountCoverage(items: seq<AnalysisItem>, verdict: string): (n: nat)
    ensures n <= |items|
  {
    if items == [] then 0
    else (if items[0].coverage == verdict then 1 else 0) + CountCoverage(items[1..], verdict)
  }

  /** Items carrying two different labels are counted apart: the two tallies never exceed the list. */
  lemma {:induction false} CountsDisjoint(items: seq<AnalysisItem>, a: string, b: string)
    requires a != b
    ensures CountCoverage(items, a) + CountCoverage(items, b) <= |items|
  {
    if items != [] {
      CountsDisjoint(items[1..], a, b);
    }
  }

  function Detail(item: AnalysisItem): DetailedItem {
    DetailedItem(item.requirement, item.coverage, item.similarityScore,
                 if item.matchedDesignItems.Some? then item.matchedDesignItems.value else [],
                 if item.issue.Some? then item.issue.value else "")
  }

  /** The `detailed_analysis` loop: one entry per item, in order, with the key defaults filled in. */
  method DetailedAnalysis(items: seq<AnalysisItem>) returns (d: seq<DetailedItem>)
    ensures |d| == |items|
    ensures forall k :: 0 <= k < |items| ==>
              && d[k].requirement == items[k].requirement
              && d[k].status == items[k].coverage
              && d[k].similarityScore == items[k].similarityScore
              && d[k].matchedDesignItems == (if items[k].matchedDesignItems.Some? then items[k].matchedDesignItems.value else [])
              && d[k].issue == (if items[k].issue.Some? then items[k].issue.value else "")
    ensures forall k :: 0 <= k < |items| ==> d[k] == Detail(items[k])
  {
    d := [];
    for k := 0 to |items|
      invariant |d| == k
      invariant forall j :: 0 <= j < k ==> d[j] == Detail(items[j])
    {
      var item := items[k];
      var matched := if item.matchedDesignItems.Some? then item.matchedDesignItems.value else [];
      var issue := if item.issue.Some? then item.issue.value else "";
      d := d + [DetailedItem(item.requirement, item.coverage, item.similarityScore, matched, issue)];
    }
  }

  /** The content of the feedback prompt; the percentage divides by the number of requirements. */
  function FeedbackPromptFor(requirements: seq<string>, design: seq<string>, semantic: seq<AnalysisItem>): FeedbackPrompt
    requires |requirements| > 0
  {
    var covered := CountCoverage(semantic, "Present");
    FeedbackPrompt(|requirements|, |design|, covered, CountCoverage(semantic, "Missing"),
                   (covered as real / |requirements| as real) * 100.0,
                   requirements, design,
                   seq(|semantic|, k requires 0 <= k < |semantic| => Detail(semantic[k])))
  }

  /** What the prompt reports: the input sizes, the two tallies, and a percentage within [0, 100] when each requirement has one item. */
  lemma FeedbackPromptFacts(requirements: seq<string>, design: seq<string>, semantic: seq<AnalysisItem>)
    requires |requirements| > 0
    ensures var p := FeedbackPromptFor(requirements, design, semantic);
            && p.totalRequirements == |requirements|
            && p.totalDesignItems == |design|
            && p.coveredRequirements == CountCoverage(semantic, "Present")
            && p.missingRequirements == CountCoverage(semantic, "Missing")
            && p.coveredRequirements + p.missingRequirements <= |semantic|
            && |p.detailedAnalysis| == |semantic|
            && (|semantic| == |requirements| ==> 0.0 <= p.coveragePercentage <= 100.0)
  {
    CountsDisjoint(semantic, "Present", "Missing");
    if |semantic| == |requirements| {
      PercentageBounds(CountCoverage(semantic, "Present"), |requirements|);
    }
  }

  /** A share of at most the whole is a percentage between 0 and 100. */
  lemma PercentageBounds(part: nat, whole: nat)
    requires 0 < whole && part <= whole
    ensures 0.0 <= (part as real / whole as real) * 100.0 <= 100.0
  {
    var q := part as real / whole as real;
    assert q * whole as real == part as real;
    assert (1.0 - q) * whole as real == whole as real - part as real;
  }

  /**
   * `generate_improved_feedback`: with no requirements the percentage in the
   * prompt raises `ZeroDivisionError` before the provider is called; otherwise a
   * failed provider call becomes the reply "Error generating feedback: ...".
   */
  method GenerateImprovedFeedback(requirements: seq<string>, design: seq<string>, semantic: seq<AnalysisItem>,
                                  complete: FeedbackPrompt -> ModelOutcome) returns (r: Result<string>)
    ensures |requirements| == 0 ==> r == Err(ZERO_DIVISION)
    ensures |requirements| > 0 ==>
              r == Ok(ReplyText(complete(FeedbackPromptFor(requirements, design, semantic)), FEEDBACK_ERROR_PREFIX))
  {
    var covered := CountCoverage(semantic, "Present");
    var missing := CountCoverage(semantic, "Missing");
    var detailed := DetailedAnalysis(semantic);
    if |requirements| == 0 {
      return Err(ZERO_DIVISION);
    }
    var prompt := FeedbackPrompt(|requirements|, |design|, covered, missing,
                                 (covered as real / |requirements| as real) * 100.0,
                                 requirements, design, detailed);
    assert prompt == FeedbackPromptFor(requirements, design, semantic);
    var outcome := complete(prompt);
    r := Ok(ReplyText(outcome, FEEDBACK_ERROR_PREFIX));
  }
}
