/** Ai::ResponseGeneratorService: validates the conversation and its context, asks the OpenAI
    client for a draft, and turns every failure into a GenerationError. */
module ResponseGenerator {
  import opened Outcomes
  import opened JsonValues
  import opened ConversationContext
  import opened OpenaiService

  const NotFound := "Conversation not found"
  const NoMessages := "Conversation has no messages"
  const NoContext := "No conversation context available"
  const InsufficientContext := "Insufficient conversation context"
  const GenericFailure := "Failed to generate AI response"

  /** The conversation as the service sees it: its id and all of its messages. */
  datatype Conversation = Conversation(id: nat, messages: seq<Message>)

  /** A service instance: the conversation it was given (possibly nil) and its OpenAI client. */
  datatype Generator = Generator(conversation: Option<Conversation>, client: Client)

  /** Ai::ResponseGeneratorService.new: building the OpenAI client happens here, outside any
      rescue, so a missing API key escapes as the client's ApiError before any validation. */
  function NewGenerator(conversation: Option<Conversation>, settings: Settings): (r: Result<Generator>)
    ensures r.Err? <==> "OPENAI_API_KEY" !in settings
    ensures r.Err? ==> r.fault == ApiError(ApiKeyMissing)
    ensures r.Ok? ==> r.value.conversation == conversation && Ok(r.value.client) == NewClient(settings)
  {
    var client :- NewClient(settings);
    Ok(Generator(conversation, client))
  }

  /** validate_conversation: nil is blank, and so is a conversation without any message (of
      any type). */
  function ValidateConversation(conversation: Option<Conversation>): (r: Result<Conversation>)
    ensures r.Ok? <==> conversation.Some? && conversation.value.messages != []
    ensures r.Ok? ==> r.value == conversation.value
    ensures conversation.None? ==> r == Err(GenerationError(NotFound))
    ensures conversation.Some? && conversation.value.messages == [] ==> r == Err(GenerationError(NoMessages))
  {
    match conversation
    case None => Err(GenerationError(NotFound))
    case Some(c) => if c.messages == [] then Err(GenerationError(NoMessages)) else Ok(c)
  }

  /** validate_context: an empty context is blank; the length check after it can never fire,
      so the only error is the "no context" one. */
  function ValidateContext(context: seq<ContextEntry>): (r: Result<seq<ContextEntry>>)
    ensures r.Ok? <==> context != []
    ensures r.Ok? ==> r.value == context
    ensures r.Err? ==> r.fault == GenerationError(NoContext)
  {
    if context == [] then Err(GenerationError(NoContext))
    else if |context| < 1 then Err(GenerationError(InsufficientContext))
    else Ok(context)
  }

  /** What one call does before any rescue: the outcome, and the request posted to the model
      if it got that far. */
  datatype Attempt = Attempt(outcome: Result<Json>, request: Option<Json>)

  /** Lines 9-13 of generate_response, before the rescue clauses. */
  function Steps(g: Generator, customPrompt: string,
                 send: Json -> Result<HttpResponse>, parse: string -> Parsed): Attempt
  {
    match ValidateConversation(g.conversation)
    case Err(f) => Attempt(Err(f), None)
    case Ok(conversation) =>
      match BuildContext(conversation.messages)
      case Err(f) => Attempt(Err(f), None)
      case Ok(context) =>
        match ValidateContext(context)
        case Err(f) => Attempt(Err(f), None)
        case Ok(_) =>
          Attempt(OpenaiService.GenerateResponse(g.client, context, customPrompt, send, parse),
                  Some(RequestFor(g.client, context, customPrompt)))
  }

  /** The model is asked exactly when the conversation is there, has messages, every selected
      message has a sender and at least one message qualifies for the context; the request is
      the one built from that context. */
  lemma ModelAskedIff(g: Generator, customPrompt: string,
                      send: Json -> Result<HttpResponse>, parse: string -> Parsed)
    ensures var a := Steps(g, customPrompt, send, parse);
      a.request.Some? <==>
        && g.conversation.Some? && g.conversation.value.messages != []
        && (forall i :: 0 <= i < |SelectRecent(g.conversation.value.messages)| ==>
              SelectRecent(g.conversation.value.messages)[i].sender.Some?)
        && Qualifying(g.conversation.value.messages) != []
    ensures var a := Steps(g, customPrompt, send, parse);
      a.request.Some? ==>
        a.request.value == RequestFor(g.client, BuildContext(g.conversation.value.messages).value, customPrompt)
  {
    if g.conversation.Some? {
      BuildContextSpec(g.conversation.value.messages);
    }
  }

  /** The rescue clauses as written: an ApiError keeps its message, anything else (a
      GenerationError raised by the validations included, since it is a StandardError) is
      replaced by the generic message. */
  function RescueAsWritten(f: Fault): (r: Fault)
    ensures r.GenerationError?
    ensures f.ApiError? ==> r.message == f.message
    ensures !f.ApiError? ==> r.message == GenericFailure
  {
    match f
    case ApiError(m) => GenerationError(m)
    case _ => GenerationError(GenericFailure)
  }

  /** generate_response as written. */
  function GenerateResponseAsWritten(g: Generator, customPrompt: string,
                                     send: Json -> Result<HttpResponse>, parse: string -> Parsed): (r: Result<Json>)
    ensures r.Err? ==> r.fault.GenerationError?
    ensures r.Ok? <==> Steps(g, customPrompt, send, parse).outcome.Ok?
    ensures r.Ok? ==> r == Steps(g, customPrompt, send, parse).outcome
  {
    match Steps(g, customPrompt, send, parse).outcome
    case Ok(text) => Ok(text)
    case Err(f) => Err(RescueAsWritten(f))
  }

  /** As written, the reason a validation gives is lost: a conversation without messages is
      reported with the generic message rather than "Conversation has no messages". */
  lemma ValidationMessageLost(id: nat, client: Client, customPrompt: string,
                              send: Json -> Result<HttpResponse>, parse: string -> Parsed)
    ensures GenerateResponseAsWritten(Generator(Some(Conversation(id, [])), client), customPrompt, send, parse)
      == Err(GenerationError(GenericFailure))
    ensures Steps(Generator(Some(Conversation(id, [])), client), customPrompt, send, parse).outcome
      == Err(GenerationError(NoMessages))
  {
  }

  /** "Failed to generate AI response" starts every message the client's prefix starts. */
  lemma GenericStartsPrefixed(m: string)
    requires |FailedPrefix| <= |m| && m[..|FailedPrefix|] == FailedPrefix
    ensures |GenericFailure| <= |m| && m[..|GenericFailure|] == GenericFailure
  {
    assert FailedPrefix[..|GenericFailure|] == GenericFailure;
    assert m[..|GenericFailure|] == m[..|FailedPrefix|][..|GenericFailure|];
  }

  /** The only ApiErrors before the rescue are the client's, and those carry its prefix. */
  lemma StepsApiErrorsPrefixed(g: Generator, customPrompt: string,
                               send: Json -> Result<HttpResponse>, parse: string -> Parsed)
    ensures var a := Steps(g, customPrompt, send, parse);
      a.outcome.Err? && a.outcome.fault.ApiError? ==>
        |FailedPrefix| <= |a.outcome.fault.message| && a.outcome.fault.message[..|FailedPrefix|] == FailedPrefix
  {
    if g.conversation.Some? && g.conversation.value.messages != [] {
      var messages := g.conversation.value.messages;
      FormatMessagesOk(SelectRecent(messages));
      if BuildContext(messages).Ok? && BuildContext(messages).value != [] {
        assert Steps(g, customPrompt, send, parse).outcome ==
          OpenaiService.GenerateResponse(g.client, BuildContext(messages).value, customPrompt, send, parse);
      }
    }
  }

  /** As written, every failure a caller sees has a message starting with "Failed to generate
      AI response": the generic message, or a client error, which the client prefixes. */
  lemma AsWrittenMessagesAllGeneric(g: Generator, customPrompt: string,
                                    send: Json -> Result<HttpResponse>, parse: string -> Parsed)
    ensures var r := GenerateResponseAsWritten(g, customPrompt, send, parse);
      r.Err? ==> |GenericFailure| <= |r.fault.message| && r.fault.message[..|GenericFailure|] == GenericFailure
  {
    var a := Steps(g, customPrompt, send, parse);
    StepsApiErrorsPrefixed(g, customPrompt, send, parse);
    if a.outcome.Err? && a.outcome.fault.ApiError? {
      GenericStartsPrefixed(a.outcome.fault.message);
    }
  }

  /** The rescue clauses as evidently intended: a GenerationError raised by a validation passes
      unchanged, an ApiError keeps its message, anything else gets the generic message. */
  function Rescue(f: Fault): (r: Fault)
    ensures r.GenerationError?
    ensures !f.RuntimeError? ==> r.message == f.message
    ensures f.RuntimeError? ==> r.message == GenericFailure
  {
    match f
    case GenerationError(m) => f
    case ApiError(m) => GenerationError(m)
    case RuntimeError(_) => GenerationError(GenericFailure)
  }

  /** generate_response with the intended rescue: returns the client's reply, or raises a
      GenerationError. */
  function GenerateResponse(g: Generator, customPrompt: string,
                            send: Json -> Result<HttpResponse>, parse: string -> Parsed): (r: Result<Json>)
    ensures r.Err? ==> r.fault.GenerationError?
    ensures r.Ok? <==> Steps(g, customPrompt, send, parse).outcome.Ok?
    ensures r.Ok? ==> r == Steps(g, customPrompt, send, parse).outcome
  {
    match Steps(g, customPrompt, send, parse).outcome
    case Ok(text) => Ok(text)
    case Err(f) => Err(Rescue(f))
  }

  /** With the intended rescue, each validation reports its own reason, and the model is not
      asked. */
  lemma ValidationMessageKept(g: Generator, customPrompt: string,
                              send: Json -> Result<HttpResponse>, parse: string -> Parsed)
    ensures g.conversation.None? ==>
      GenerateResponse(g, customPrompt, send, parse) == Err(GenerationError(NotFound))
    ensures g.conversation.Some? && g.conversation.value.messages == [] ==>
      GenerateResponse(g, customPrompt, send, parse) == Err(GenerationError(NoMessages))
    ensures g.conversation.Some? && g.conversation.value.messages != [] && Qualifying(g.conversation.value.messages) == [] ==>
      GenerateResponse(g, customPrompt, send, parse) == Err(GenerationError(NoContext))
    ensures g.conversation.None? || g.conversation.value.messages == [] || Qualifying(g.conversation.value.messages) == [] ==>
      Steps(g, customPrompt, send, parse).request.None?
  {
    if g.conversation.Some? {
      BuildContextSpec(g.conversation.value.messages);
      FormatMessagesOk(SelectRecent(g.conversation.value.messages));
    }
  }

  /** The two rescues differ only on GenerationErrors raised by the validations: on a reply and
      on every other failure they give the same result. */
  lemma RescuesAgreeElsewhere(g: Generator, customPrompt: string,
                              send: Json -> Result<HttpResponse>, parse: string -> Parsed)
    ensures var outcome := Steps(g, customPrompt, send, parse).outcome;
      !(outcome.Err? && outcome.fault.GenerationError?) ==>
        GenerateResponse(g, customPrompt, send, parse) == GenerateResponseAsWritten(g, customPrompt, send, parse)
  {
  }

  /** Once the model is asked, the caller gets its reply, or a GenerationError carrying the
      client's prefixed message; a nil sender among the selected messages gives the generic
      message. */
  lemma ReplyOrClientError(g: Generator, customPrompt: string,
                           send: Json -> Result<HttpResponse>, parse: string -> Parsed)
    ensures var a, r := Steps(g, customPrompt, send, parse), GenerateResponse(g, customPrompt, send, parse);
      a.request.Some? ==>
        var context := BuildContext(g.conversation.value.messages).value;
        var reply := OpenaiService.GenerateResponse(g.client, context, customPrompt, send, parse);
        && (reply.Ok? ==> r == reply)
        && (reply.Err? ==> r == Err(GenerationError(reply.fault.message)))
    ensures g.conversation.Some? && g.conversation.value.messages != [] &&
            BuildContext(g.conversation.value.messages).Err? ==>
      GenerateResponse(g, customPrompt, send, parse) == Err(GenerationError(GenericFailure))
  {
    if g.conversation.Some? {
      FormatMessagesOk(SelectRecent(g.conversation.value.messages));
    }
  }
}
