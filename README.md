# Requirement–Design Comparator: a verified model of its core

The Requirement–Design Comparator is a FastAPI back end. It compares a list of
requirements with a list of design items and marks each requirement as covered
("Present") or not ("Missing"). It asks a language model for improved feedback
on that analysis, and it keeps chat conversations about it in memory. This
project models the logic that surrounds the library and network calls, and
proves properties of that model.

It covers:

- **Documents** (`documents.dfy`): `parse_document_content`. A parsed JSON or
  YAML tree is flattened into its scalar leaves. A top-level list gives `str`
  of each element. Otherwise the plain-text fallback applies. More than one
  non-blank line gives the trimmed non-blank lines. Otherwise, when a spaCy
  model is loaded, its trimmed non-blank sentences are used, which may be none.
  Only when no spaCy model is loaded is the whole text, trimmed, the one item.
- **Analysis** (`analysis.dfy`): the per-requirement loops of
  `analyze_documents` and `get_llm_feedback`. This covers the best score (0
  without design items), the two-way verdict and its issue text, the
  `matched_design_items` filter, and the summary tallies.
- **LlmService** (`llm_service.dfy`): the message list `chat_conversation`
  sends, made of the system entry, the last 10 stored messages and the user
  entry with any context. Also the counts, the `detailed_analysis` projection
  and the percentage of `generate_improved_feedback`.
- **Chat** (`chat_service.dfy`): `ConversationStore` and `ChatService` as
  classes. A `map<string, seq<ChatMessage>>` field holds the conversations, and
  a `seq<string>` field records their insertion order.
- **ChatEndpoint** (`chat_endpoint.dfy`): the choice in `chat_with_llm`. It
  either continues the named conversation or starts a new one.

Some inputs come from outside the model; each is passed in as a parameter:

- The TF-IDF/cosine similarity matrix is given as `Ok(scores)`, or as `Err(e)`
  when the vectorizer raised.
- The JSON/YAML parsers' outcomes are given as `Option<Json>`.
- spaCy's sentence texts are given as `Option<seq<string>>`.
- The language model is a function from what is sent to a `ModelOutcome`:
  `Reply(text)` or `Failure(error)`.
- `json.dumps` is a function returning a `Result`.
- `uuid4` is replaced by an identifier required to be fresh.
- `datetime.now()` is replaced by `Time` values.

The model follows the code as written, including these points:

- The code has exactly two verdicts, "Present" and "Missing"; there is no
  partial coverage.
- `start_conversation` stores a welcome message. So a new conversation holds
  three messages after its first exchange, not two.
- When the model call fails, the conversation still gains an assistant
  message after the user's: "Error in chat: ..." when the provider raised
  inside `chat_conversation`, or "Error generating response: ..." when the
  context could not be rendered. A failed turn therefore stores two messages,
  like a successful one.
- `send_message` returns `message_count = len(history) + 1`. `history` is the
  stored list itself, so it already holds the assistant turn by the time the
  count is taken. The count is therefore the new stored length plus one, that
  is, the old length plus three. The model states this as written.
- `generate_improved_feedback` divides by the number of requirements before its
  `try`. The text `if total_requirements > 0 else 0` is only literal prompt
  text. With no requirements the call therefore raises, and `get_llm_feedback`
  fails with "division by zero".

## Model

| member | source | states |
|---|---|---|
| Analysis.MaxScore | backend/app/main.py:132 | 0 for an empty row; otherwise a score of the row that is at least every score in it |
| Analysis.Classify | backend/app/main.py:134-139 | Present with issue "" iff the best score is at least the threshold; otherwise Missing with "Requirement not found in design" |
| Analysis.SimilarityRow | backend/app/main.py:128-131 | the scores of requirement i, `scores[i]`: one per design item, none when there are no design items |
| Analysis.AboveIndices | backend/app/main.py:217-220 | strictly increasing positions, exactly those whose score reaches the threshold |
| Analysis.MatchedDesignItems | backend/app/main.py:217-220 | the comprehension itself: at most one item per design item, each of them a design item; MatchedSelectsAboveThreshold says which ones and in what order |
| Analysis.MatchedSelectsAboveThreshold | backend/app/main.py:217-220 | the matched items are the design items at those positions, in design-list order |
| Analysis.MatchedNonEmptyIffAboveMax | backend/app/main.py:217-222 | with design items present, some item is matched iff the best score reaches the threshold |
| Analysis.Feedback | backend/app/main.py:126-148 | one response per requirement, in input order, entry i naming requirement i |
| Analysis.Assess | backend/app/main.py:132-146 | the response for one requirement: its text, the verdict of Classify for the best score of its row, and that score; CoverageDecision and EndpointsAgree state its meaning |
| Analysis.SemanticResults | backend/app/main.py:209-231 | one result per requirement, in input order, each recording the number of design items |
| Analysis.SemanticResultFor | backend/app/main.py:211-231 | the `semantic_results` entry of requirement i: text, verdict, best score, matched items (none without design items) and the design count; CoverageDecision, NoDesignItems and MatchedIffPresent state its meaning |
| Analysis.EndpointsAgree | backend/app/main.py:222-228 | for the same scores, both endpoints give requirement i the same coverage, issue and similarity score as lines 132-145 |
| Analysis.CoverageDecision | backend/app/main.py:222-228 | coverage Present with issue "" iff score ≥ threshold; Missing with the not-found issue iff score < threshold; the score is the row's best |
| Analysis.NoDesignItems | backend/app/main.py:211-213 | without design items the score is 0 and nothing is matched, and a positive threshold makes the requirement Missing in both endpoints |
| Analysis.MatchedIffPresent | backend/app/main.py:217-227 | with design items present, a requirement has matched items iff its coverage is Present |
| Analysis.CountCoverage | backend/app/main.py:247-248 | a tally never exceeds the number of results |
| Analysis.SummaryOf | backend/app/main.py:244-249 | the `summary` dictionary: both input sizes and the Present and Missing tallies; SummaryFacts and ThresholdMonotone state its properties |
| Analysis.TalliesPartition | backend/app/main.py:247-248 | when every verdict is Present or Missing, the two tallies add up to the number of results |
| Analysis.SummaryFacts | backend/app/main.py:244-249 | the summary echoes both input sizes, and covered + missing equals the number of requirements |
| Analysis.PresentCountMonotone | backend/app/main.py:247 | pointwise fewer Presents give a smaller covered count |
| Analysis.ThresholdMonotone | backend/app/main.py:226 | a higher threshold never increases the covered count for the same scores |
| Analysis.AsAnalysisItems | backend/app/main.py:235-239 | the results handed to the feedback service, one per result, with every key present |
| Analysis.AsAnalysisItem | backend/app/main.py:224-231 | one `semantic_results` dictionary as the feedback service reads it: requirement, coverage, score, and the `matched_design_items` and `issue` keys present; AsAnalysisItems states the list |
| Analysis.PromptTalliesMatchSummary | backend/app/main.py:247-248 | the tallies the feedback prompt reports equal the summary's tallies |
| Analysis.AnalyzeDocuments | backend/app/main.py:115-151 | a vectorizer error is passed on; otherwise the loop's responses equal Feedback |
| Analysis.GetLlmFeedback | backend/app/main.py:196-250 | a vectorizer error is passed on; no requirements fails with "division by zero"; otherwise the results, the model's (or error) text for exactly their prompt, and their summary |
| Documents.NatToString | backend/app/main.py:75 | `str` of a number is a non-empty string of decimal digits with no leading zero, whose decimal value is the number |
| Documents.IntToString | backend/app/main.py:75-79 | the numeral of an integer: "-" and the magnitude's numeral for a negative one, otherwise NatToString |
| Documents.Str | backend/app/main.py:75-79 | `str` of a leaf or list element: a string is itself; a non-negative integer is its decimal numeral (NatToString), a negative one "-" followed by the numeral of its magnitude |
| Documents.Repr | backend/app/main.py:75-79 | `repr` of a non-string leaf, list or dictionary: None, True/False, the integer numeral, quoted strings, bracketed items and braced entries |
| Documents.Flatten | backend/app/main.py:67-75 | the walk of `recurse`: a dictionary by its values, a list by its elements, a scalar as `str` of it; Recurse, FlattenLength and the in-order lemmas state its properties |
| Documents.FlattenItems | backend/app/main.py:71-73 | the `for x in d` loop: the flattenings of the list elements, concatenated in order |
| Documents.FlattenEntries | backend/app/main.py:68-70 | the `for v in d.values()` loop: the flattenings of the dictionary values, concatenated in insertion order |
| Documents.Recurse | backend/app/main.py:67-76 | walking a tree appends exactly its flattening to the captured list |
| Documents.FlattenEntriesAppend | backend/app/main.py:68-70 | flattening a sequence of dictionary entries distributes over concatenation |
| Documents.FlattenItemsAppend | backend/app/main.py:71-73 | flattening a sequence of list elements distributes over concatenation |
| Documents.FlattenDictInOrder | backend/app/main.py:68-70 | a dictionary's values are flattened in insertion order |
| Documents.FlattenListInOrder | backend/app/main.py:71-73 | a list's elements are flattened in order |
| Documents.FlattenLength | backend/app/main.py:74-75 | flattening yields exactly one string per scalar leaf |
| Documents.StrEach | backend/app/main.py:78-79 | a top-level list gives `str` of each element, one per element, without recursion |
| Documents.TreeItems | backend/app/main.py:65-79 | a dictionary gives its flattening and a list gives `str` of each element; a scalar gives nothing, so parsing falls through |
| Documents.Truthy | backend/app/services/chat_service.py:56 | Python truthiness of a parsed value, as `if analysis_context:` and `if context:` (llm_service.py:120) test it: None, False, 0, "", [] and {} are false |
| Documents.TrimStart | backend/app/main.py:105 | removes a whitespace prefix and nothing else; the result does not start with whitespace |
| Documents.IsSpace | backend/app/main.py:105 | the characters `str.isspace()` accepts, which `strip()` removes: tab to carriage return, the four separators 0x1C-0x1F, space, 0x85, 0xA0, 0x1680, 0x2000-0x200A, 0x2028, 0x2029, 0x202F, 0x205F, 0x3000 |
| Documents.IsTrimmed | backend/app/main.py:105 | a string that `strip()` leaves unchanged: empty, or neither its first nor its last character is whitespace |
| Documents.TrimEnd | backend/app/main.py:105 | removes a whitespace suffix and nothing else; the result does not end with whitespace |
| Documents.Trim | backend/app/main.py:105 | `strip()` leaves no whitespace at either end and never lengthens |
| Documents.Split | backend/app/main.py:105 | `split('\n')` always gives at least one piece |
| Documents.JoinSplit | backend/app/main.py:105 | joining the pieces with the separator gives back the text |
| Documents.SplitPiecesHaveNoSeparator | backend/app/main.py:105 | no piece contains the separator |
| Documents.NonBlankTrimmed | backend/app/main.py:105 | the comprehension keeps no more pieces than it is given |
| Documents.NonBlankTrimmedAppend | backend/app/main.py:105 | order is kept: filtering a concatenation gives the concatenation of the filtered parts |
| Documents.NonBlankTrimmedAreTrimmed | backend/app/main.py:105 | every kept piece is non-empty and trimmed |
| Documents.NonBlankTrimmedMembers | backend/app/main.py:105 | a string is kept iff it is non-empty and the trimmed form of some piece |
| Documents.PlainText | backend/app/main.py:105-113 | more than one non-blank line gives the trimmed lines; otherwise the trimmed sentences, or the whole text trimmed without a sentence splitter |
| Documents.ParseDocumentContent | backend/app/main.py:60-113 | JSON, then YAML, then plain text; a JSON dictionary gives its flattening; unparsed or scalar documents give the plain-text reading |
| Documents.ParsedItems | backend/app/main.py:63-102 | what one parser stage yields: nothing when the parser raised, otherwise TreeItems of the tree, so a scalar document falls through |
| Documents.DocumentItems | backend/app/main.py:60-113 | the list `parse_document_content` returns: the JSON stage if it yields, else the YAML stage, else PlainText; ParseDocumentContent is proved equal to it |
| LlmService.MessageListShape | backend/app/services/llm_service.py:108-124 | system entry first, user entry last, and between them the last min(10, \|history\|) messages in order with role and content copied; 2 to 12 entries |
| LlmService.Window | backend/app/services/llm_service.py:113 | `conversation_history[-10:]`: the whole history when it has at most 10 messages, otherwise its last 10; MessageListShape states the result |
| LlmService.UserContent | backend/app/services/llm_service.py:119-124 | the user entry's content: the message, with the header and the rendered context appended when the context is truthy, or the rendering's error; UserContentCases states the cases |
| LlmService.ChatMessages | backend/app/services/llm_service.py:108-124 | the list sent to the provider: system entry, projected window, user entry; MessageListShape states its shape |
| LlmService.ToPrompt | backend/app/services/llm_service.py:114-117 | one stored message as a provider entry: its role and content, without the timestamp |
| LlmService.Project | backend/app/services/llm_service.py:113-117 | the provider entries of the window, one per message in order; MessageListShape states it |
| LlmService.ChatReply | backend/app/services/llm_service.py:108-137 | what `chat_conversation` returns, or raises when the context cannot be rendered; ChatConversation is proved to return it and ChatFailureIsReply states its cases |
| LlmService.ReplyText | backend/app/services/llm_service.py:97-100 | a provider reply is the text; a provider failure becomes the given error prefix followed by the error, never raised; the same handling at lines 134-137 |
| LlmService.UserContentCases | backend/app/services/llm_service.py:120-124 | a truthy context appends "\nCurrent Analysis Context: " and its JSON; otherwise the message is unchanged |
| LlmService.ChatFailureIsReply | backend/app/services/llm_service.py:119-137 | only rendering the context can raise; a failed model call becomes "Error in chat: ..." |
| LlmService.ChatConversation | backend/app/services/llm_service.py:102-137 | the loop builds exactly the message list above and returns the model's reply text for it |
| LlmService.CountCoverage | backend/app/services/llm_service.py:38-39 | a tally never exceeds the number of items |
| LlmService.CountsDisjoint | backend/app/services/llm_service.py:38-39 | the covered and missing tallies together never exceed the number of items |
| LlmService.Detail | backend/app/services/llm_service.py:44-50 | one `detailed_analysis` entry: requirement, coverage as status, score, and the `.get` defaults [] and ""; DetailedAnalysis states it field by field |
| LlmService.FeedbackPromptFor | backend/app/services/llm_service.py:53-84 | the prompt's content: the two sizes, the two tallies, the percentage covered / total × 100, both input lists and the detailed analysis; FeedbackPromptFacts states its properties |
| LlmService.DetailedAnalysis | backend/app/services/llm_service.py:42-51 | one entry per item, in order; status is the coverage; matched items default to [] and the issue to "" |
| LlmService.FeedbackPromptFacts | backend/app/services/llm_service.py:36-61 | the prompt reports both input sizes and both tallies, one detailed entry per item, and a percentage in [0, 100] when there is one item per requirement |
| LlmService.PercentageBounds | backend/app/services/llm_service.py:61 | covered / total × 100 lies in [0, 100] |
| LlmService.GenerateImprovedFeedback | backend/app/services/llm_service.py:29-100 | no requirements raises "division by zero" before the model is called; otherwise the model's reply, or "Error generating feedback: ..." |
| Chat.SummaryAfterAppend | backend/app/services/chat_service.py:36-44 | an append adds one to the count, sets the last timestamp, and changes the creation time only for an empty conversation |
| Chat.Summarize | backend/app/services/chat_service.py:36-44 | the summary of a message list: the id, its length, and the first and last timestamps, absent when empty; SummaryAfterAppend relates it across an append |
| Chat.TurnText | backend/app/services/chat_service.py:96-97 | the `except` of `send_message`: what `chat_conversation` raised becomes "Error generating response: ..."; TurnReplyCases states all three cases |
| Chat.TurnReplyCases | backend/app/services/chat_service.py:80-103 | the assistant turn is the reply, "Error in chat: ..." for a failed model call, or "Error generating response: ..." when the context cannot be rendered |
| Chat.AssistantTurn | backend/app/services/chat_service.py:80-98 | the text stored and returned as the assistant's turn |
| Chat.TurnReply | backend/app/services/chat_service.py:80-98 | the assistant turn `send_message` stores and returns: ChatReply for the prior history, with a raised error turned into text by TurnText; TurnReplyCases states its cases |
| Chat.ConversationStore.constructor | backend/app/services/chat_service.py:10-11 | no conversations |
| Chat.ConversationStore.CreateConversation | backend/app/services/chat_service.py:13-17 | the fresh id maps to [], it is last in the order, and every other conversation is unchanged |
| Chat.ConversationStore.AddMessage | backend/app/services/chat_service.py:19-30 | true iff the id is known; then exactly one message is appended to that conversation alone; otherwise nothing changes |
| Chat.ConversationStore.GetConversation | backend/app/services/chat_service.py:32-34 | the stored messages, or [] for an unknown id, which is not inserted |
| Chat.ConversationStore.GetConversationSummary | backend/app/services/chat_service.py:36-44 | count is the length; created and last timestamps come from the first and last messages, or are absent when empty |
| Chat.ChatService.constructor | backend/app/services/chat_service.py:47-50 | an empty store and no recorded contexts |
| Chat.ChatService.ContextOf | backend/app/services/chat_service.py:77 | the recorded context, absent exactly when none was recorded |
| Chat.ChatService.StartConversation | backend/app/services/chat_service.py:52-63 | the new conversation holds exactly the welcome message; the context is recorded iff it is truthy |
| Chat.ChatService.SendMessage | backend/app/services/chat_service.py:65-103 | unknown id: "Invalid conversation ID" and no change; otherwise user turn then assistant turn appended, the model shown the prior history, count = old length + 3 |
| Chat.ChatService.Exchange | backend/app/services/chat_service.py:70-103 | for a known id: the two appends, the turn text for the prior history, and the count |
| Chat.ChatService.GetConversationHistory | backend/app/services/chat_service.py:105-115 | one entry per stored message, in order, with role, content and timestamp copied |
| Chat.ChatService.GetConversationsList | backend/app/services/chat_service.py:117-123 | one summary per stored id, in insertion order; an id is listed iff it is stored |
| ChatEndpoint.ToHttp | backend/app/main.py:189-194 | the service's reply is returned; an invalid id becomes a 404 with the error's text |
| ChatEndpoint.Continues | backend/app/main.py:181 | `if request.conversation_id:`: an id is present and not the empty string; ChatWithLlm states both branches |
| ChatEndpoint.ChatWithLlm | backend/app/main.py:175-194 | a present, non-empty id behaves as `send_message` on it; otherwise a new conversation without context gets the turn, with welcome, user and assistant stored and count 4 |

## Left out

- The TF-IDF vectorizer and cosine similarity (sklearn): the score matrix is an input. Nothing is proved about its values.
- The JSON and YAML parsers and spaCy's sentence splitter: their outcomes are inputs.
- Floating point: scores, thresholds and the percentage are reals. A JSON/YAML float leaf is not among the `Json` values.
- Other values `yaml.safe_load` can build are not among the `Json` values either: dates and timestamps (`str` of a `datetime.date` gives its ISO text), `!!binary` bytes, `!!set` sets (neither dict nor list, so the whole set would be `str`-ed as one leaf), and mappings with non-string keys (`Entry.key` is a string, so `str` of such a dictionary is not modelled).
- `str` of a list or dictionary element uses a simplified `repr`: single quotes, with no escaping.
- The provider calls (model name, token limits, temperature) and `response.choices[0].message.content` being `None`: the model is an oracle returning text or an error.
- The prompt's text layout, markdown and `indent=2` formatting, and the `.1f` formatting of the coverage percentage: the prompt is modelled by its content (`FeedbackPrompt`).
- The FastAPI layer: routing, CORS, request validation, file upload and UTF-8 decoding. HTTP status codes other than the 404 of `chat_with_llm`. The `get_chat_history` and `get_all_conversations` endpoints, beyond the service methods they call.
- `uuid.uuid4()`, `datetime.now()` and `isoformat()`: fresh identifiers and `Time` values are parameters, and history timestamps are not rendered as text.
- Environment configuration, the `LLMService` constructor's missing-key `ValueError`, and the process-wide singletons.
- Concurrency: the source has no locking or asynchronous logic of its own.
- Documents.Trim: its own contract states only that the result is trimmed and no longer than the input. That it removes only whitespace, and only at the two ends, is stated by the contracts of TrimStart and TrimEnd, which it composes.
- Chat.ChatService.GetConversationHistory: timestamps are passed through as `Time` values, not as ISO-8601 strings.
