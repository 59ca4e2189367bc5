# AI draft replies for conversations — a Dafny model

This project models the AI draft-reply feature of a customer-support inbox. An agent asks for a
suggested reply to a conversation. The feature then:

1. checks that the conversation exists and has messages;
2. builds a context window: the 15 most recent incoming or outgoing messages with content,
   oldest first, each turned into a role-tagged entry (`user` for the customer, `assistant`
   for the agent; customer lines are prefixed with the sender's name);
3. turns that context and the agent's custom prompt into a request for the OpenAI Responses
   API: a system prompt, plus the conversation flattened into `role: content` lines;
4. extracts the drafted text from the reply;
5. translates every failure into a `GenerationError`.

A per-conversation record (`AiConversation`) says whether drafting is switched on. A small
manager service switches it on and off.

Modules, one per source file, plus three shared ones:

- `Outcomes`: the exception classes (`ApiError`, `GenerationError`, any other `StandardError`). It also holds `Result`, which stands for "returns or raises".
- `Text`: `String#strip`, `Array#join`, a `Split` that inverts joining, `String#[]` with a String argument, and `Integer#to_s`.
- `JsonValues`: parsed JSON values. It covers Ruby truthiness (only `nil` and `false` are falsy), `value[key]` on every kind of value (Hash lookup, String substring lookup, `TypeError` for Array and Integer, `NoMethodError` for nil and booleans), `dig`, and `"#{...}"` rendering.
- `ConversationContext`: `Ai::ConversationContextService` (pure functions).
- `OpenaiService`: `Ai::OpenaiService`. The client is a value, because `initialize` sets its fields once and nothing changes them afterwards.
- `ResponseGenerator`: `Ai::ResponseGeneratorService`. It has two translations of failures: the rescue clauses as written, and as intended (see Findings).
- `AiConversations`: the record, its defaults, its uniqueness validation, the `enabled` scope, and the ai_conversations table. The table is a class whose `rows` map is updated by `update!`.
- `ConversationManager`: `Ai::ConversationManagerService`, a class over that table.

Three details of the code shape what the caller sees:

- **Status check.** Only the status code `"200"` is accepted, not any 2xx (`StatusCheckedFirst`).
- **ApiError messages are prefixed.** `generate_response` of the client wraps every failure, so a response with status `"200"` whose body is `{"error":{"message":"rate limited"}}` reaches the caller as `"Failed to generate AI response: OpenAI API error: rate limited"` (`ApiErrorReported`). With any other status the body is never read, and the caller sees `"Failed to generate AI response: HTTP Error: <code> - <message>"` (`StatusCheckedFirst`).
- **A non-Hash `error` is not an API error.** Any truthy `error` fails before the output is looked at, but only a Hash one gives "OpenAI API error: …". A String such as `{"error":"rate limited"}` makes `dig` raise a `TypeError` ("String does not have #dig method"), so the caller sees that message behind the prefix instead (`ErrorAlwaysFails`).
- **Validation messages are lost.** The errors raised by the validations never reach the caller with their own message (see Findings).

Inputs the model takes as parameters:

- the settings store (`GlobalConfigService.load`), as a map;
- the HTTP exchange (`send`), as a function from request body to response or failure;
- `JSON.parse` (`parse`), as a function from body text to a value or a parse error;
- creation times, as an ordering key plus their ISO-8601 text.

Where each modelled operation lives, and the lemmas that say what it does:

- `ConversationContext.SelectRecent` (fetch_recent_messages): `SelectRecentSpec` and the `SelectRecent*` lemmas.
- `ConversationContext.DetermineRole`, `FormatContent` and `FormatMessage`: `FormatQualifying`, `ContextRoles` and `WhitespaceOutgoingIsEmpty`.
- `ConversationContext.BuildContext`: `BuildContextSpec` and `ContextEntryAt`.
- `OpenaiService.ConvertToInput`: `ConvertToInputEmpty`, `ConvertToInputLines`, `BuiltMessagesLines` and `BuiltMessagesPayload`.
- `OpenaiService.RequestBody` (request_body): `RequestBodyShape` and `BuiltMessagesPayload`.
- `OpenaiService.ExtractResponseText`, `ExtractFromBody` and `TextFromOutput` (extract_response_text):
  - `StatusCheckedFirst`, `ErrorCheckedBeforeOutput` and `ErrorAlwaysFails`;
  - `OutputTextWins` and `OnlyFirstMessageItem`;
  - `OutputNotAnArray`, `NoMessageItem`, `NoOutputTextPart` and `FalsyText`;
  - `FallbackWhenOutputGivesNothing` and `HelloReply`.
- `ResponseGenerator.Steps` (lines 9-13 of generate_response): `ModelAskedIff`, `StepsApiErrorsPrefixed` and `ReplyOrClientError`.

## Model

| member | source | states |
|---|---|---|
| ConversationContext.Qualifying | app/services/ai/conversation_context_service.rb:18-19 | every kept message is incoming or outgoing with non-nil, non-empty content; each qualifying message is kept exactly as often as it occurs, every other one is dropped |
| ConversationContext.InsertByNewest | app/services/ai/conversation_context_service.rb:20 | inserting into a newest-first sequence keeps it newest first, adds exactly one element, and adds nothing but the inserted message |
| ConversationContext.InsertPermutes | app/services/ai/conversation_context_service.rb:20 | insertion is a permutation of the old sequence plus the new message |
| ConversationContext.SortNewestFirst | app/services/ai/conversation_context_service.rb:20 | `order(created_at: :desc)` gives a sequence in descending creation-time order |
| ConversationContext.SortPermutes | app/services/ai/conversation_context_service.rb:20 | ordering neither adds, drops nor duplicates a message (multiset equality) |
| ConversationContext.Reverse | app/services/ai/conversation_context_service.rb:22 | `reverse` keeps the length and puts element i at position n-1-i |
| ConversationContext.ReversePermutes | app/services/ai/conversation_context_service.rb:22 | reversing is a permutation |
| ConversationContext.ConsNewestFirst | app/services/ai/conversation_context_service.rb:20 | a message no older than any in a newest-first sequence can be put in front of it |
| ConversationContext.ReverseOldestFirst | app/services/ai/conversation_context_service.rb:20-22 | reversing a newest-first sequence gives ascending creation-time order |
| ConversationContext.PrefixIsNewest | app/services/ai/conversation_context_service.rb:20-21 | after a newest-first ordering, nothing past the limit is newer than anything before it |
| ConversationContext.PrefixNewestFirst | app/services/ai/conversation_context_service.rb:20-21 | `limit` keeps the newest-first order |
| ConversationContext.TakePermutes | app/services/ai/conversation_context_service.rb:21-22 | the reversed taken part and the part left out together make up the ordered messages |
| ConversationContext.TakeIsNewest | app/services/ai/conversation_context_service.rb:20-22 | no message left out by `limit` is newer than any selected one |
| ConversationContext.SelectRecentLength | app/services/ai/conversation_context_service.rb:15-23 | fetch_recent_messages returns min(15, number of qualifying messages) messages |
| ConversationContext.SelectRecentDrawn | app/services/ai/conversation_context_service.rb:15-23 | every fetched message qualifies, and the fetched messages are a sub-multiset of the qualifying ones |
| ConversationContext.SelectRecentOrdered | app/services/ai/conversation_context_service.rb:15-23 | the fetched messages are in ascending creation-time order (chronological) |
| ConversationContext.SelectRecentNewest | app/services/ai/conversation_context_service.rb:15-23 | no qualifying message that was not fetched is newer than any fetched one |
| ConversationContext.SelectRecentAllWhenFew | app/services/ai/conversation_context_service.rb:15-23 | with at most 15 qualifying messages, all of them are fetched |
| ConversationContext.SelectRecentSpec | app/services/ai/conversation_context_service.rb:15-23 | all of the above in one statement: the 15 newest qualifying messages, oldest first |
| ConversationContext.FormatMessagesOk | app/services/ai/conversation_context_service.rb:25-34 | formatting succeeds exactly when every message has a sender; otherwise it raises NoMethodError for `nil.name` |
| ConversationContext.FormatMessagesAt | app/services/ai/conversation_context_service.rb:25-34 | a successful formatting has one entry per message, and entry i is message i formatted |
| ConversationContext.FormatQualifying | app/services/ai/conversation_context_service.rb:36-56 | a formatted qualifying message has role user for incoming and assistant for outgoing, stripped content that is prefixed with "name: " only for incoming, the sender's name and the ISO-8601 time |
| ConversationContext.BuildContextSpec | app/services/ai/conversation_context_service.rb:8-11 | build_context succeeds exactly when every selected message has a sender; it then has min(15, #qualifying) entries, is empty exactly when nothing qualifies, and entry i is the i-th selected message formatted |
| ConversationContext.ContextEntryAt | app/services/ai/conversation_context_service.rb:25-56 | entry i of the context spelled out in terms of the i-th selected message: role, content with its incoming-only prefix, sender and timestamp |
| ConversationContext.ContextRoles | app/services/ai/conversation_context_service.rb:36-45 | every context entry has role "user" or "assistant", never "system" |
| ConversationContext.WhitespaceOutgoingIsEmpty | app/services/ai/conversation_context_service.rb:19 | a whitespace-only outgoing message passes the non-empty filter, and its content strips to "" |
| Text.TrimStartSpec | app/services/ai/conversation_context_service.rb:48 | lstrip removes exactly a whitespace prefix and leaves no leading whitespace |
| Text.TrimEndSpec | app/services/ai/conversation_context_service.rb:48 | rstrip removes exactly a whitespace suffix and leaves no trailing whitespace |
| Text.StripIsTrimmedInfix | app/services/ai/conversation_context_service.rb:48 | strip returns a contiguous part of the string, everything cut off is whitespace, and the result neither starts nor ends with whitespace |
| Text.StripEmptyIffBlank | app/services/ai/conversation_context_service.rb:48 | a string strips to "" exactly when it is all whitespace |
| Text.StripIdempotent | app/services/ai/conversation_context_service.rb:48 | stripping twice is stripping once |
| Text.JoinSnoc | app/services/ai/openai_service.rb:319 | joining one more line appends the separator and that line |
| Text.Split | app/services/ai/openai_service.rb:319 | reference inverse of the join at line 319 (the program never splits): splitting always yields at least one line |
| Text.SplitNoSeparator | app/services/ai/openai_service.rb:319 | reference inverse of the join at line 319: a line without the separator splits into itself |
| Text.SplitAtSeparator | app/services/ai/openai_service.rb:319 | reference inverse of the join at line 319: splitting at the first separator yields the part before it followed by the split of the rest |
| Text.SplitJoin | app/services/ai/openai_service.rb:319 | the join at line 319 is inverted by the reference split when no line contains the separator |
| Text.ContainsIffOccurs | app/services/ai/openai_service.rb:340 | `s[t]` finds `t` exactly when `t` occurs at some index of `s` |
| JsonValues.Index | app/services/ai/openai_service.rb:332 | `value[key]` succeeds exactly on a Hash or a String; a Hash gives the entry or nil, a String gives the key if it is a substring, else nil; anything else raises |
| JsonValues.Dig | app/services/ai/openai_service.rb:333 | `dig('error', 'message')` on a Hash gives the nested entry when the first one is a Hash, nil when it is missing, and raises only as a StandardError |
| OpenaiService.NewClient | app/services/ai/openai_service.rb:30-41 | without an API key the client raises ApiError "AI OpenAI API key not configured"; otherwise it uses the stored key, and the stored model and endpoint or the defaults gpt-5 and https://api.openai.com/v1 |
| OpenaiService.BuildMessages | app/services/ai/openai_service.rb:51-69 | the message list is the system message (the fixed prompt text followed by "Custom prompt: <prompt>") followed by one message per context entry with the same role and content, in order |
| OpenaiService.SystemInstructionsSpec | app/services/ai/openai_service.rb:312-315 | the instructions are the content of the first system message, and nil exactly when there is none |
| OpenaiService.NonSystemSpec | app/services/ai/openai_service.rb:318 | the rejection drops every system message and keeps every other message as often as it occurs |
| OpenaiService.NonSystemAppend | app/services/ai/openai_service.rb:318 | the rejection keeps order: rejecting from a concatenation is the concatenation of the rejections |
| OpenaiService.NonSystemWithin | app/services/ai/openai_service.rb:318 | every kept message comes from the input |
| OpenaiService.NonSystemKeepsAll | app/services/ai/openai_service.rb:318 | a list without system messages is kept unchanged, in order |
| OpenaiService.ConvertToInputEmpty | app/services/ai/openai_service.rb:317-320 | with only system messages the input text is "" |
| OpenaiService.ConvertToInputLines | app/services/ai/openai_service.rb:317-320 | when no non-system role or content contains a line break (the system message may have any), the input splits back into exactly one "role: content" line per non-system message, in order |
| OpenaiService.BuiltMessagesLines | app/services/ai/openai_service.rb:317-320 | for the messages built from a non-empty context with no line break in any entry, the input splits back into one "role: content" line per context entry, in order, although the system prompt spans many lines |
| OpenaiService.BuiltMessagesPayload | app/services/ai/openai_service.rb:294-298 | for messages built from a context, the input is the context's "role: content" lines joined by newlines, and the instructions are the system prompt |
| OpenaiService.RequestBodyShape | app/services/ai/openai_service.rb:294-298 | the request body has exactly the keys model, input and instructions; instructions is null exactly when there is no system message |
| OpenaiService.StatusCheckedFirst | app/services/ai/openai_service.rb:325-328 | any status code other than exactly "200" raises ApiError "HTTP Error: code - message" before the body is parsed |
| OpenaiService.ErrorCheckedBeforeOutput | app/services/ai/openai_service.rb:332-336 | a Hash `error` raises ApiError "OpenAI API error: " followed by error.message, or by "Unknown OpenAI API error" when that is nil or false, whatever else the body holds |
| OpenaiService.ErrorAlwaysFails | app/services/ai/openai_service.rb:332-336 | every truthy `error` fails before the output lookup; one that is not a Hash raises the error of `dig`, which is not an ApiError |
| OpenaiService.FindByTypeSpec | app/services/ai/openai_service.rb:340 | on an array of Hashes, find returns the first one of the given type, or nil when there is none |
| OpenaiService.OutputTextWins | app/services/ai/openai_service.rb:338-350 | in a well-formed envelope, the text of the first output_text part of the first message item is returned, even if a top-level content exists |
| OpenaiService.FallbackWhenOutputGivesNothing | app/services/ai/openai_service.rb:352-357 | whenever the output lookup yields no text, whatever `output` holds, a truthy top-level content is returned, and otherwise ApiError "No valid content found in OpenAI response" is raised |
| OpenaiService.OutputNotAnArray | app/services/ai/openai_service.rb:338-339 | a missing `output`, or one that is not an array, yields no text |
| OpenaiService.NoMessageItem | app/services/ai/openai_service.rb:340-341 | an output array of Hashes without an item of type message yields no text |
| OpenaiService.NoOutputTextPart | app/services/ai/openai_service.rb:342-345 | when the first message item has no output_text part, there is no text, even if a later message item has one |
| OpenaiService.FalsyText | app/services/ai/openai_service.rb:345-347 | a nil or false text in the first output_text part yields no text |
| OpenaiService.OnlyFirstMessageItem | app/services/ai/openai_service.rb:340-350 | only the first message item is read: the outcome is the same as if it were the only output item |
| OpenaiService.HelloReply | app/services/ai/openai_service.rb:338-350 | the documented success envelope yields "Hello!" |
| OpenaiService.GenerateResponse | app/services/ai/openai_service.rb:14-26 | every failure of the client's generate_response is an ApiError whose message starts with "Failed to generate AI response: " |
| OpenaiService.GenerateResponseWraps | app/services/ai/openai_service.rb:14-26 | the client returns exactly what parsing the reply returns; on any failure it raises ApiError with the prefix before the original message |
| OpenaiService.ApiErrorReported | app/services/ai/openai_service.rb:332-336 | for a response with status "200" whose body has an error Hash with message m, m reaches the client's caller as "Failed to generate AI response: OpenAI API error: m" |
| ResponseGenerator.NewGenerator | app/services/ai/response_generator_service.rb:2-6 | creating the service fails with the client's missing-key ApiError before any validation, and otherwise keeps the given conversation |
| ResponseGenerator.ValidateConversation | app/services/ai/response_generator_service.rb:24-27 | nil raises "Conversation not found", a conversation without any message raises "Conversation has no messages", and anything else passes |
| ResponseGenerator.ValidateContext | app/services/ai/response_generator_service.rb:29-32 | an empty context raises "No conversation context available" and every other context passes; the "Insufficient conversation context" branch can never be taken |
| ResponseGenerator.ModelAskedIff | app/services/ai/response_generator_service.rb:8-13 | the model is asked exactly when the conversation exists, has messages, every selected message has a sender and some message qualifies; the request is the one built from that context |
| ResponseGenerator.StepsApiErrorsPrefixed | app/services/ai/response_generator_service.rb:8-13 | the only ApiErrors raised before the rescue come from the client, and carry its prefix |
| ResponseGenerator.RescueAsWritten | app/services/ai/response_generator_service.rb:14-19 | the rescue as written turns an ApiError into a GenerationError with the same message, and every other error into the generic "Failed to generate AI response" |
| ResponseGenerator.GenerateResponseAsWritten | app/services/ai/response_generator_service.rb:8-20 | as written, generate_response returns the client's reply (the steps' own result) exactly when all steps succeed, and otherwise raises only GenerationError |
| ResponseGenerator.ValidationMessageLost | app/services/ai/response_generator_service.rb:17-19 | as written, a conversation without messages is reported as "Failed to generate AI response", although the validation raised "Conversation has no messages" |
| ResponseGenerator.AsWrittenMessagesAllGeneric | app/services/ai/response_generator_service.rb:14-19 | as written, every error message a caller sees starts with "Failed to generate AI response" |
| ResponseGenerator.GenericStartsPrefixed | app/services/ai/openai_service.rb:25 | a message with the client's prefix starts with the generic message |
| ResponseGenerator.Rescue | app/services/ai/response_generator_service.rb:14-19 | the intended rescue lets a validation's GenerationError pass, keeps an ApiError's message and gives the generic message for any other error |
| ResponseGenerator.GenerateResponse | app/services/ai/response_generator_service.rb:8-20 | with the intended rescue, generate_response returns the client's reply (the steps' own result) exactly when every step succeeds, and otherwise raises only GenerationError |
| ResponseGenerator.ValidationMessageKept | app/services/ai/response_generator_service.rb:24-32 | with the intended rescue, each validation reports its own message (not found, no messages, no context) and the model is not asked |
| ResponseGenerator.RescuesAgreeElsewhere | app/services/ai/response_generator_service.rb:14-19 | the two rescues differ only on GenerationErrors raised by the validations |
| ResponseGenerator.ReplyOrClientError | app/services/ai/response_generator_service.rb:13-19 | once the model is asked, the caller gets the client's reply or a GenerationError with the client's message; a nil sender gives the generic message |
| AiConversations.Build | db/migrate/20241220000002_add_ai_conversations.rb:5-6 | a built record has ai_enabled false and ai_config {} |
| AiConversations.ValidationErrors | app/models/ai_conversation.rb:25 | a record fails validation exactly when it is new and its conversation already has a row |
| AiConversations.UpdatedKeyed | db/migrate/20241220000002_add_ai_conversations.rb:10 | saving keeps one row per conversation, filed under its own id |
| AiConversations.UpdatedSetsFlag | app/models/ai_conversation.rb:29-35 | after enable_ai! or disable_ai! the flag has the new value, the configuration is unchanged, and no other conversation's row changes |
| AiConversations.UpdateIdempotent | app/models/ai_conversation.rb:29-35 | repeating enable_ai! or disable_ai! on the saved record changes nothing |
| AiConversations.DisableDisabledIsNoOp | app/models/ai_conversation.rb:33-35 | disabling a saved record that is already disabled leaves the table as it was |
| AiConversations.EnabledScopeAfterUpdate | app/models/ai_conversation.rb:27 | the enabled scope gains exactly the enabled conversation and loses exactly the disabled one |
| AiConversations.AiConversationTable.Find | app/services/ai/conversation_manager_service.rb:7 | `conversation.ai_conversation` is the conversation's row, or nil when it has none |
| AiConversations.AiConversationTable.Enabled | app/models/ai_conversation.rb:27 | the scope holds exactly the conversations whose row has ai_enabled true |
| AiConversations.AiConversationTable.Update | app/models/ai_conversation.rb:25-35 | update! either fails uniqueness, raising RecordInvalid and saving nothing, or saves the record with the new flag and changes no other row |
| AiConversations.AiConversationTable.EnableAi | app/models/ai_conversation.rb:29-31 | enable_ai! saves the record with ai_enabled true and adds its conversation to the enabled scope |
| AiConversations.AiConversationTable.DisableAi | app/models/ai_conversation.rb:33-35 | disable_ai! saves the record with ai_enabled false and removes its conversation from the enabled scope |
| ConversationManager.ConversationManagerService.AiEnabled | app/services/ai/conversation_manager_service.rb:17-19 | ai_enabled? is the row's flag, and false when the conversation has no row |
| ConversationManager.ConversationManagerService.EnableAi | app/services/ai/conversation_manager_service.rb:6-10 | enable_ai! never fails; it saves the existing row, or a new one with the default config, with ai_enabled true, returns it and changes no other row |
| ConversationManager.ConversationManagerService.DisableAi | app/services/ai/conversation_manager_service.rb:12-15 | disable_ai! creates no row when there is none; otherwise it clears only the flag of the existing row; afterwards ai_enabled? is false |
| ConversationManager.ConversationManagerService.EnableAiForConversation | app/services/ai/conversation_manager_service.rb:21-23 | the class-level entry point does what enable_ai! does on a new service for that conversation |

## Left out

- The HTTP exchange of `make_response_api_call` (URI, SSL, headers, the Bearer token, timing) is the `send` parameter. Only the body it posts is modelled.
- `initialize_client` is not modelled: the `OpenAI::Client` it builds is never used by the calls modelled here.
- Logging (`Rails.logger`) is not modelled: it has no effect on results.
- The wording of the system prompt (identity, tone, business data) is the fixed stand-in `SystemPromptText`. Only its placement before the "Custom prompt:" line is modelled.
- `to_json` serialisation of the request body is not modelled: the body is a JSON value.
- `JSON.parse` is the `parse` parameter. Its success and its `JSON::ParserError` are both handled.
- JSON numbers are integers. Floats are not modelled.
- Arrays and hashes interpolated into a message are rendered as the placeholders `[...]` and `{...}`, not in Ruby's inspect format.
- The texts of Ruby's own exceptions (`TypeError`, `NoMethodError`, `RecordInvalid`) are approximations. They differ across Ruby versions.
- `created_at` is an ordering key plus its ISO-8601 text. The rendering of `iso8601` is not modelled.
- ConversationContext.SortNewestFirst breaks ties between equal creation times by keeping table order. The database leaves that order unspecified, so which of several equally old messages is cut at the limit is not modelled.
- AiConversations.ValidationErrors leaves out the presence check and the `belongs_to` existence check ("Conversation must exist"). Conversation ids are natural numbers of existing conversations.
- Records are values, and the table holds their saved state. Object identity, stale in-memory copies and Rails' partial writes are not modelled. `Update` therefore requires a saved record to be passed as it was loaded.
- ConversationManager.ConversationManagerService.DisableAi does not model the return value (nil, or the `true` of `update!`).
- Concurrency is not modelled: two simultaneous `enable_ai!` calls racing on the unique index.
- OpenaiService.FindByTypeSpec is stated only for arrays of Hashes. `FindByType` itself models the errors the block raises on other items.
- The controller, its `ensure_ai_enabled` filter, the JavaScript API client and the migration's other statements are not part of this model.

## Findings

| source | as written | input that shows it | evidently intended | confidence | as-written member | corrected member |
|---|---|---|---|---|---|---|
| app/services/ai/response_generator_service.rb:17-19 | `GenerationError` is a `StandardError`, so `rescue StandardError` also catches the errors raised by `validate_conversation` and `validate_context`, and replaces their message with "Failed to generate AI response" | a conversation that has no messages | the validation's own message reaches the caller: the controller documents a 422 with "No conversation context available" (app/controllers/api/v1/accounts/conversations/ai_controller.rb:18-22) | high, not executed | ResponseGenerator.ValidationMessageLost | ResponseGenerator.ValidationMessageKept |
