/** Ai::OpenaiService without its HTTP transport: configuration, the prompt messages, the
    request body of the /responses call, and the parsing of the reply into the drafted text. */
module OpenaiService {
  import opened Outcomes
  import opened Text
  import opened JsonValues
  import opened ConversationContext

  /** DEFAULT_MODEL and DEFAULT_ENDPOINT. */
  const DefaultModel := "gpt-5"
  const DefaultEndpoint := "https://api.openai.com/v1"

  const ApiKeyMissing := "AI OpenAI API key not configured"
  const NoValidContent := "No valid content found in OpenAI response"
  const UnknownApiError := "Unknown OpenAI API error"
  const FailedPrefix := "Failed to generate AI response: "

  /** Stand-in for the fixed instructional part of the system prompt (identity, scope, tone,
      planning steps, business data), up to and including the blank line before the
      "Custom prompt:" line. Its wording is not modelled; only that it is fixed is. */
  const SystemPromptText: string := "[Identity]\n(fixed instructions and business data)\n\n"

  /** The three instance variables initialize sets and never changes afterwards. */
  datatype Client = Client(apiKey: string, model: string, endpoint: string)

  /** What GlobalConfigService.load finds per key; a key that is absent loads as nil. */
  type Settings = map<string, string>

  function Load(settings: Settings, key: string): Option<string> {
    if key in settings then Some(settings[key]) else None
  }

  /** Ai::OpenaiService.new: the API key is required (raising ApiError before anything else is
      resolved), the model and endpoint fall back to their defaults. Any string the store holds,
      "" included, is taken as set. */
  function NewClient(settings: Settings): (r: Result<Client>)
    ensures r.Err? <==> "OPENAI_API_KEY" !in settings
    ensures r.Err? ==> r.fault == ApiError(ApiKeyMissing)
    ensures r.Ok? ==> r.value.apiKey == settings["OPENAI_API_KEY"]
    ensures r.Ok? && "OPENAI_MODEL" !in settings ==> r.value.model == DefaultModel
    ensures r.Ok? && "OPENAI_ENDPOINT" !in settings ==> r.value.endpoint == DefaultEndpoint
    ensures r.Ok? && "OPENAI_MODEL" in settings ==> r.value.model == settings["OPENAI_MODEL"]
    ensures r.Ok? && "OPENAI_ENDPOINT" in settings ==> r.value.endpoint == settings["OPENAI_ENDPOINT"]
  {
    match Load(settings, "OPENAI_API_KEY")
    case None => Err(ApiError(ApiKeyMissing))
    case Some(key) =>
      var model := match Load(settings, "OPENAI_MODEL") case Some(m) => m case None => DefaultModel;
      var endpoint := match Load(settings, "OPENAI_ENDPOINT") case Some(e) => e case None => DefaultEndpoint;
      Ok(Client(key, model, endpoint))
  }

  /** One `{role:, content:}` hash of the message list. */
  datatype PromptMessage = PromptMessage(role: string, content: string)

  /** build_system_message: the fixed text, then the line "Custom prompt: <custom_prompt>". */
  function SystemMessage(customPrompt: string): PromptMessage {
    PromptMessage("system", SystemPromptText + "Custom prompt: " + customPrompt + "\n")
  }

  /** build_conversation_messages: role and content of each context entry, in order. */
  function ConversationMessages(context: seq<ContextEntry>): seq<PromptMessage> {
    seq(|context|, i requires 0 <= i < |context| => PromptMessage(context[i].role, context[i].content))
  }

  /** build_messages: the system message followed by one message per context entry. */
  function BuildMessages(context: seq<ContextEntry>, customPrompt: string): (r: seq<PromptMessage>)
    ensures |r| == 1 + |context|
    ensures r[0].role == "system"
    ensures |SystemPromptText| <= |r[0].content|
    ensures r[0].content[..|SystemPromptText|] == SystemPromptText
    ensures r[0].content[|SystemPromptText|..] == "Custom prompt: " + customPrompt + "\n"
    ensures forall i :: 0 <= i < |context| ==>
      r[i + 1].role == context[i].role && r[i + 1].content == context[i].content
  {
    [SystemMessage(customPrompt)] + ConversationMessages(context)
  }

  /** extract_system_instructions: the content of the first system message, nil if none. */
  function SystemInstructions(messages: seq<PromptMessage>): Option<string> {
    if messages == [] then None
    else if messages[0].role == "system" then Some(messages[0].content)
    else SystemInstructions(messages[1..])
  }

  /** Index i holds the first message whose role is "system". */
  predicate FirstSystemAt(messages: seq<PromptMessage>, i: int) {
    && 0 <= i < |messages|
    && messages[i].role == "system"
    && forall j :: 0 <= j < i ==> messages[j].role != "system"
  }

  /** extract_system_instructions finds the content of the first system message, and gives nil
      exactly when there is none. */
  lemma {:induction false} SystemInstructionsSpec(messages: seq<PromptMessage>)
    ensures SystemInstructions(messages).None? <==> forall i :: 0 <= i < |messages| ==> messages[i].role != "system"
    ensures SystemInstructions(messages).Some? ==>
      exists i :: FirstSystemAt(messages, i) && SystemInstructions(messages).value == messages[i].content
  {
    if messages != [] && messages[0].role != "system" {
      var tail := messages[1..];
      SystemInstructionsSpec(tail);
      assert forall i :: 1 <= i < |messages| ==> tail[i - 1] == messages[i];
      if SystemInstructions(tail).Some? {
        var i :| FirstSystemAt(tail, i) && SystemInstructions(tail).value == tail[i].content;
        assert FirstSystemAt(messages, i + 1);
      }
    } else if messages != [] {
      assert FirstSystemAt(messages, 0);
    }
  }

  /** The messages `reject { |msg| msg[:role] == 'system' }` keeps, in order. */
  function NonSystem(messages: seq<PromptMessage>): seq<PromptMessage> {
    if messages == [] then []
    else (if messages[0].role == "system" then [] else [messages[0]]) + NonSystem(messages[1..])
  }

  /** The rejection drops every system message and keeps every other one as often as it
      occurs. */
  lemma {:induction false} NonSystemSpec(messages: seq<PromptMessage>)
    ensures forall i :: 0 <= i < |NonSystem(messages)| ==> NonSystem(messages)[i].role != "system"
    ensures forall m :: multiset(NonSystem(messages))[m] == if m.role == "system" then 0 else multiset(messages)[m]
  {
    if messages != [] {
      NonSystemSpec(messages[1..]);
      assert messages == [messages[0]] + messages[1..];
    }
  }

  /** The rejection keeps order: rejecting from a concatenation concatenates the rejections. */
  lemma {:induction false} NonSystemAppend(a: seq<PromptMessage>, b: seq<PromptMessage>)
    ensures NonSystem(a + b) == NonSystem(a) + NonSystem(b)
  {
    if a != [] {
      assert (a + b)[1..] == a[1..] + b;
      NonSystemAppend(a[1..], b);
    } else {
      assert a + b == b;
    }
  }

  /** Every kept message was in the list. */
  lemma {:induction false} NonSystemWithin(messages: seq<PromptMessage>)
    ensures forall m :: m in NonSystem(messages) ==> m in messages
  {
    if messages != [] {
      NonSystemWithin(messages[1..]);
    }
  }

  /** A list without system messages is kept as it is. */
  lemma {:induction false} NonSystemKeepsAll(messages: seq<PromptMessage>)
    requires forall i :: 0 <= i < |messages| ==> messages[i].role != "system"
    ensures NonSystem(messages) == messages
  {
    if messages != [] {
      NonSystemKeepsAll(messages[1..]);
      assert messages == [messages[0]] + messages[1..];
    }
  }

  /** `"#{msg[:role]}: #{msg[:content]}"`. */
  function Line(m: PromptMessage): string {
    m.role + ": " + m.content
  }

  function Lines(messages: seq<PromptMessage>): seq<string> {
    seq(|messages|, i requires 0 <= i < |messages| => Line(messages[i]))
  }

  /** convert_messages_to_input. */
  function ConvertToInput(messages: seq<PromptMessage>): string {
    Join("\n", Lines(NonSystem(messages)))
  }

  /** With no message other than system ones the input is the empty string. */
  lemma ConvertToInputEmpty(messages: seq<PromptMessage>)
    requires forall i :: 0 <= i < |messages| ==> messages[i].role == "system"
    ensures ConvertToInput(messages) == ""
  {
    NonSystemSpec(messages);
  }

  /** When no role or content of a non-system message contains a line break (the system
      message, which is left out of the input, may have any), the input splits back into
      exactly one "role: content" line per non-system message, in order. */
  lemma ConvertToInputLines(messages: seq<PromptMessage>)
    requires NonSystem(messages) != []
    requires forall m :: m in messages && m.role != "system" ==> '\n' !in m.role && '\n' !in m.content
    ensures Split(ConvertToInput(messages), '\n') == Lines(NonSystem(messages))
  {
    var kept := NonSystem(messages);
    NonSystemWithin(messages);
    NonSystemSpec(messages);
    forall i | 0 <= i < |kept|
      ensures '\n' !in Lines(kept)[i]
    {
      assert kept[i] in kept;
      assert kept[i].role != "system";
      assert Lines(kept)[i] == kept[i].role + ": " + kept[i].content;
    }
    SplitJoin(Lines(kept), '\n');
  }

  /** For the messages built from a non-empty context with no line break in any entry, the
      input splits back into one "role: content" line per context entry, in order, although
      the system prompt spans many lines. */
  lemma BuiltMessagesLines(context: seq<ContextEntry>, customPrompt: string)
    requires context != []
    requires forall i :: 0 <= i < |context| ==>
      context[i].role != "system" && '\n' !in context[i].role && '\n' !in context[i].content
    ensures Split(ConvertToInput(BuildMessages(context, customPrompt)), '\n')
      == seq(|context|, i requires 0 <= i < |context| => context[i].role + ": " + context[i].content)
  {
    var msgs := BuildMessages(context, customPrompt);
    var conv := ConversationMessages(context);
    BuiltTail(context, customPrompt);
    NonSystemKeepsAll(conv);
    assert NonSystem(msgs) == conv by {
      assert msgs == [msgs[0]] + conv;
    }
    forall m | m in msgs && m.role != "system"
      ensures '\n' !in m.role && '\n' !in m.content
    {
      var k :| 0 <= k < |msgs| && msgs[k] == m;
      assert k != 0;
      assert m == conv[k - 1];
    }
    ConvertToInputLines(msgs);
    assert Lines(conv) == seq(|context|, i requires 0 <= i < |context| => context[i].role + ": " + context[i].content);
  }

  /** The messages built after the system message are the context's, in order. */
  lemma BuiltTail(context: seq<ContextEntry>, customPrompt: string)
    ensures BuildMessages(context, customPrompt)[1..] == ConversationMessages(context)
  {
  }

  /** For the messages built from a context (whose roles are never "system"), the input is one
      "role: content" line per context entry, in order, and the instructions are the system
      message. */
  lemma BuiltMessagesPayload(context: seq<ContextEntry>, customPrompt: string)
    requires forall i :: 0 <= i < |context| ==> context[i].role != "system"
    ensures ConvertToInput(BuildMessages(context, customPrompt))
      == Join("\n", seq(|context|, i requires 0 <= i < |context| => context[i].role + ": " + context[i].content))
    ensures SystemInstructions(BuildMessages(context, customPrompt)) == Some(SystemMessage(customPrompt).content)
  {
    var msgs := BuildMessages(context, customPrompt);
    var conv := ConversationMessages(context);
    assert msgs[1..] == conv;
    NonSystemKeepsAll(conv);
    assert NonSystem(msgs) == conv;
    assert Lines(conv) == seq(|context|, i requires 0 <= i < |context| => context[i].role + ": " + context[i].content);
  }

  /** request_body: model and input always, instructions possibly null. */
  function RequestBody(client: Client, messages: seq<PromptMessage>): Json {
    JObj(map[
      "model" := JStr(client.model),
      "input" := JStr(ConvertToInput(messages)),
      "instructions" := match SystemInstructions(messages) case Some(c) => JStr(c) case None => JNull])
  }

  /** The request body always has exactly the keys model, input and instructions; instructions
      is null exactly when no system message was given. */
  lemma RequestBodyShape(client: Client, messages: seq<PromptMessage>)
    ensures RequestBody(client, messages).JObj?
    ensures RequestBody(client, messages).fields.Keys == {"model", "input", "instructions"}
    ensures RequestBody(client, messages).fields["model"] == JStr(client.model)
    ensures RequestBody(client, messages).fields["input"] == JStr(ConvertToInput(messages))
    ensures RequestBody(client, messages).fields["instructions"] == JNull <==>
      forall i :: 0 <= i < |messages| ==> messages[i].role != "system"
  {
    SystemInstructionsSpec(messages);
  }

  /** The response of the POST, as Net::HTTP hands it back. */
  datatype HttpResponse = HttpResponse(code: string, message: string, body: string)

  /** What JSON.parse makes of a body: a value, or a JSON::ParserError with its message. */
  datatype Parsed = Parsed(value: Json) | Unparsable(message: string)

  /** `items.find { |item| item['type'] == ty }`: the block itself raises on items that cannot
      be indexed by a String. */
  function FindByType(items: seq<Json>, ty: string): Result<Option<Json>> {
    if items == [] then Ok(None)
    else
      match Index(items[0], "type")
      case Err(f) => Err(f)
      case Ok(t) => if t == JStr(ty) then Ok(Some(items[0])) else FindByType(items[1..], ty)
  }

  /** Array#any? without a block: some element is truthy. */
  predicate AnyTruthy(items: seq<Json>) {
    exists i :: 0 <= i < |items| && Truthy(items[i])
  }

  /** Lines 338-350: the `text` of the first output_text part of the first message item, when
      every guard on the way holds; None when a guard fails. */
  function TextFromOutput(body: Json): Result<Option<Json>> {
    match Index(body, "output")
    case Err(f) => Err(f)
    case Ok(output) =>
      if !output.JArr? then Ok(None)
      else
        match FindByType(output.elems, "message")
        case Err(f) => Err(f)
        case Ok(None) => Ok(None)
        case Ok(Some(item)) =>
          if !Truthy(item) then Ok(None)
          else
            match Index(item, "content")
            case Err(f) => Err(f)
            case Ok(parts) =>
              if !Truthy(parts) || !parts.JArr? || !AnyTruthy(parts.elems) then Ok(None)
              else
                match FindByType(parts.elems, "output_text")
                case Err(f) => Err(f)
                case Ok(None) => Ok(None)
                case Ok(Some(part)) =>
                  if !Truthy(part) then Ok(None)
                  else
                    match Index(part, "text")
                    case Err(f) => Err(f)
                    case Ok(text) => if Truthy(text) then Ok(Some(text)) else Ok(None)
  }

  /** Lines 332-357, once the body is parsed: the error check, then the output lookup, then
      the top-level content, then failure. */
  function ExtractFromBody(body: Json): Result<Json> {
    match Index(body, "error")
    case Err(f) => Err(f)
    case Ok(error) =>
      if Truthy(error) then
        match Dig(body, "error", "message")
        case Err(f) => Err(f)
        case Ok(msg) => Err(ApiError("OpenAI API error: " + Render(if Truthy(msg) then msg else JStr(UnknownApiError))))
      else
        match TextFromOutput(body)
        case Err(f) => Err(f)
        case Ok(Some(text)) => Ok(text)
        case Ok(None) =>
          match Index(body, "content")
          case Err(f) => Err(f)
          case Ok(content) => if Truthy(content) then Ok(content) else Err(ApiError(NoValidContent))
  }

  /** extract_response_text: anything but exactly "200" fails before the body is parsed. */
  function ExtractResponseText(response: HttpResponse, parse: string -> Parsed): Result<Json> {
    if response.code != "200" then
      Err(ApiError("HTTP Error: " + response.code + " - " + response.message))
    else
      match parse(response.body)
      case Unparsable(msg) => Err(RuntimeError(msg))
      case Parsed(body) => ExtractFromBody(body)
  }

  /** The status check comes first: a code other than "200" (a "201" as much as a "500") gives
      the HTTP error, whatever the body is and however it would parse. */
  lemma StatusCheckedFirst(response: HttpResponse, parse1: string -> Parsed, parse2: string -> Parsed)
    requires response.code != "200"
    ensures ExtractResponseText(response, parse1) == ExtractResponseText(response, parse2)
    ensures ExtractResponseText(response, parse1) ==
      Err(ApiError("HTTP Error: " + response.code + " - " + response.message))
  {
  }

  /** A truthy `error` in a Hash body raises the API error, with error.message or the generic
      fallback, whatever output or content the body also holds. */
  lemma ErrorCheckedBeforeOutput(fields: map<string, Json>, error: map<string, Json>)
    requires "error" in fields && fields["error"] == JObj(error)
    ensures ExtractFromBody(JObj(fields)) ==
      Err(ApiError("OpenAI API error: " +
                   (if "message" in error && Truthy(error["message"]) then Render(error["message"]) else UnknownApiError)))
  {
  }

  /** Any truthy `error` fails before the output lookup: a Hash one as above, and any other
      (a String, say) with the error `dig` raises on it, which is not an ApiError. */
  lemma ErrorAlwaysFails(fields: map<string, Json>)
    requires "error" in fields && Truthy(fields["error"])
    ensures ExtractFromBody(JObj(fields)).Err?
    ensures !fields["error"].JObj? ==> ExtractFromBody(JObj(fields)).fault.RuntimeError?
  {
  }

  /** Index i holds the first Hash whose type is `ty`. */
  predicate FirstOfType(items: seq<Json>, ty: string, i: int) {
    && 0 <= i < |items|
    && items[i].JObj? && Get(items[i].fields, "type") == JStr(ty)
    && forall j :: 0 <= j < i ==> !(items[j].JObj? && Get(items[j].fields, "type") == JStr(ty))
  }

  predicate AllObjects(items: seq<Json>) {
    forall i :: 0 <= i < |items| ==> items[i].JObj?
  }

  /** On an array of Hashes, find returns the first one of the given type, or nil if there is
      none. */
  lemma {:induction false} FindByTypeSpec(items: seq<Json>, ty: string)
    requires AllObjects(items)
    ensures FindByType(items, ty).Ok?
    ensures forall i :: FirstOfType(items, ty, i) ==> FindByType(items, ty) == Ok(Some(items[i]))
    ensures (forall i :: 0 <= i < |items| ==> Get(items[i].fields, "type") != JStr(ty)) ==>
      FindByType(items, ty) == Ok(None)
  {
    if items != [] {
      var tail := items[1..];
      assert forall i :: 1 <= i < |items| ==> tail[i - 1] == items[i];
      FindByTypeSpec(tail, ty);
      forall i | FirstOfType(items, ty, i)
        ensures FindByType(items, ty) == Ok(Some(items[i]))
      {
        if i > 0 {
          assert FirstOfType(tail, ty, i - 1);
        }
      }
    }
  }

  /** Precedence, for a well-formed envelope: the text of the first output_text part of the
      first message item wins, whatever top-level content there is; an empty text counts. */
  lemma OutputTextWins(fields: map<string, Json>, items: seq<Json>, i: nat, parts: seq<Json>, k: nat)
    requires !("error" in fields && Truthy(fields["error"]))
    requires "output" in fields && fields["output"] == JArr(items)
    requires AllObjects(items) && FirstOfType(items, "message", i)
    requires Get(items[i].fields, "content") == JArr(parts)
    requires AllObjects(parts) && FirstOfType(parts, "output_text", k)
    requires Truthy(Get(parts[k].fields, "text"))
    ensures ExtractFromBody(JObj(fields)) == Ok(Get(parts[k].fields, "text"))
  {
    FindByTypeSpec(items, "message");
    FindByTypeSpec(parts, "output_text");
    assert Truthy(parts[k]);
  }

  /** When the output lookup yields no text (whatever `output` holds), a truthy top-level
      content is the reply, and otherwise parsing fails with ApiError. */
  lemma FallbackWhenOutputGivesNothing(fields: map<string, Json>)
    requires !("error" in fields && Truthy(fields["error"]))
    requires TextFromOutput(JObj(fields)) == Ok(None)
    ensures ExtractFromBody(JObj(fields)) ==
      if "content" in fields && Truthy(fields["content"]) then Ok(fields["content"]) else Err(ApiError(NoValidContent))
  {
  }

  /** A missing `output`, or one that is not an array, yields no text. */
  lemma OutputNotAnArray(fields: map<string, Json>)
    requires !Get(fields, "output").JArr?
    ensures TextFromOutput(JObj(fields)) == Ok(None)
  {
  }

  /** An output array of Hashes without a message item yields no text. */
  lemma NoMessageItem(fields: map<string, Json>, items: seq<Json>)
    requires "output" in fields && fields["output"] == JArr(items)
    requires AllObjects(items)
    requires forall i :: 0 <= i < |items| ==> Get(items[i].fields, "type") != JStr("message")
    ensures TextFromOutput(JObj(fields)) == Ok(None)
  {
    FindByTypeSpec(items, "message");
  }

  /** When the first message item's content parts (all Hashes) hold no output_text part, there
      is no text, even if a later message item has one. */
  lemma NoOutputTextPart(fields: map<string, Json>, items: seq<Json>, i: nat, parts: seq<Json>)
    requires "output" in fields && fields["output"] == JArr(items)
    requires AllObjects(items) && FirstOfType(items, "message", i)
    requires Get(items[i].fields, "content") == JArr(parts)
    requires AllObjects(parts)
    requires forall k :: 0 <= k < |parts| ==> Get(parts[k].fields, "type") != JStr("output_text")
    ensures TextFromOutput(JObj(fields)) == Ok(None)
  {
    FindByTypeSpec(items, "message");
    FindByTypeSpec(parts, "output_text");
  }

  /** A nil or false text in the first output_text part of the first message item yields no
      text. */
  lemma FalsyText(fields: map<string, Json>, items: seq<Json>, i: nat, parts: seq<Json>, k: nat)
    requires "output" in fields && fields["output"] == JArr(items)
    requires AllObjects(items) && FirstOfType(items, "message", i)
    requires Get(items[i].fields, "content") == JArr(parts)
    requires AllObjects(parts) && FirstOfType(parts, "output_text", k)
    requires !Truthy(Get(parts[k].fields, "text"))
    ensures TextFromOutput(JObj(fields)) == Ok(None)
  {
    FindByTypeSpec(items, "message");
    FindByTypeSpec(parts, "output_text");
    assert Truthy(parts[k]);
  }

  /** Only the first message item is looked at: the outcome is the same as if it were the only
      output item. */
  lemma OnlyFirstMessageItem(fields: map<string, Json>, items: seq<Json>, i: nat)
    requires "output" in fields && fields["output"] == JArr(items)
    requires AllObjects(items) && FirstOfType(items, "message", i)
    ensures TextFromOutput(JObj(fields)) == TextFromOutput(JObj(fields["output" := JArr([items[i]])]))
  {
    FindByTypeSpec(items, "message");
    FindByTypeSpec([items[i]], "message");
    assert FirstOfType([items[i]], "message", 0);
  }

  /** Posting the request and parsing the reply; a transport error is raised as it is. */
  function CallAndExtract(body: Json, send: Json -> Result<HttpResponse>, parse: string -> Parsed): Result<Json> {
    match send(body)
    case Err(f) => Err(f)
    case Ok(response) => ExtractResponseText(response, parse)
  }

  /** The request generate_response posts. */
  function RequestFor(client: Client, context: seq<ContextEntry>, customPrompt: string): Json {
    RequestBody(client, BuildMessages(context, customPrompt))
  }

  /** generate_response: every failure on the way, ApiError or not, is raised again as an
      ApiError whose message is "Failed to generate AI response: " before the original one. */
  function GenerateResponse(client: Client, context: seq<ContextEntry>, customPrompt: string,
                            send: Json -> Result<HttpResponse>, parse: string -> Parsed): (r: Result<Json>)
    ensures r.Err? ==> r.fault.ApiError? && |FailedPrefix| <= |r.fault.message|
    ensures r.Err? ==> r.fault.message[..|FailedPrefix|] == FailedPrefix
  {
    match CallAndExtract(RequestFor(client, context, customPrompt), send, parse)
    case Ok(text) => Ok(text)
    case Err(f) => Err(ApiError(FailedPrefix + f.message))
  }

  /** generate_response returns exactly what the parsing returns, and otherwise raises an
      ApiError carrying the original message behind the prefix. */
  lemma GenerateResponseWraps(client: Client, context: seq<ContextEntry>, customPrompt: string,
                              send: Json -> Result<HttpResponse>, parse: string -> Parsed)
    ensures var inner := CallAndExtract(RequestFor(client, context, customPrompt), send, parse);
      var r := GenerateResponse(client, context, customPrompt, send, parse);
      && (r.Ok? <==> inner.Ok?)
      && (inner.Ok? ==> r.value == inner.value)
      && (inner.Err? ==> r.fault == ApiError(FailedPrefix + inner.fault.message))
  {
  }

  /** The reply of the documented success shape gives its text. */
  lemma HelloReply()
    ensures ExtractFromBody(JObj(map["output" := JArr([JObj(map[
      "type" := JStr("message"),
      "content" := JArr([JObj(map["type" := JStr("output_text"), "text" := JStr("Hello!")])])])])]))
      == Ok(JStr("Hello!"))
  {
    var part := JObj(map["type" := JStr("output_text"), "text" := JStr("Hello!")]);
    var item := JObj(map["type" := JStr("message"), "content" := JArr([part])]);
    assert AnyTruthy([part]) by { assert Truthy([part][0]); }
    assert FindByType([item], "message") == Ok(Some(item));
    assert FindByType([part], "output_text") == Ok(Some(part));
  }

  /** An error the API reports reaches the caller of generate_response with both prefixes:
      `{"error": {"message": "rate limited"}}` gives
      "Failed to generate AI response: OpenAI API error: rate limited". */
  lemma ApiErrorReported(client: Client, context: seq<ContextEntry>, customPrompt: string,
                         send: Json -> Result<HttpResponse>, parse: string -> Parsed,
                         response: HttpResponse, fields: map<string, Json>, message: string)
    requires send(RequestFor(client, context, customPrompt)) == Ok(response) && response.code == "200"
    requires parse(response.body) == Parsed(JObj(fields))
    requires "error" in fields && fields["error"] == JObj(map["message" := JStr(message)])
    ensures GenerateResponse(client, context, customPrompt, send, parse) ==
      Err(ApiError(FailedPrefix + "OpenAI API error: " + message))
  {
    ErrorCheckedBeforeOutput(fields, map["message" := JStr(message)]);
    assert CallAndExtract(RequestFor(client, context, customPrompt), send, parse)
      == Err(ApiError("OpenAI API error: " + message));
  }
}
