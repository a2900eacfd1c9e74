/** The `/api/chat` endpoint: validates the request, appends the developer's message to the
    history, asks for the client's reply to the whole updated history, and wraps the reply as a
    client message. The identifiers and clock readings are parameters. */
module ChatRoute {
  import opened Wrappers
  import opened Types
  import opened Ai

  /** The decoded request body; any field may be absent. */
  datatype ChatRequest = ChatRequest(
    scenario: Option<ScenarioInfo>,
    messages: Option<seq<Message>>,
    userMessage: Option<string>)

  /** Two fresh identifiers and two clock readings, in milliseconds. */
  datatype ChatDrawn = ChatDrawn(userMessageId: string, clientMessageId: string, userAt: int, clientAt: int)

  /** The success payload. */
  datatype ChatReply = ChatReply(
    userMessage: Message,
    clientMessage: Message,
    emotion: string,
    hints: Option<seq<string>>)

  const MissingFieldsMessage: string := "シナリオとメッセージが必要です"

  const SendFailedMessage: string := "メッセージの送信に失敗しました"

  /** A field the handler treats as missing: absent, or the empty string (both are falsy). */
  predicate IsBlank(s: Option<string>) {
    s.None? || s.value == ""
  }

  /** The request is rejected with 400 exactly when the scenario or the user message is missing. */
  predicate IsIncomplete(req: ChatRequest) {
    req.scenario.None? || IsBlank(req.userMessage)
  }

  /** The history followed by one new developer message. */
  function AppendUserMessage(history: seq<Message>, content: string, id: string, at: int): (updated: seq<Message>)
    ensures |updated| == |history| + 1
    ensures updated[..|history|] == history
    ensures updated[|history|] == Message(id, User, content, at, None)
  {
    history + [Message(id, User, content, at, None)]
  }

  /** The client message carrying a reply: its text as content and its emotion as the detected intent. */
  function ClientMessageFor(reply: ClientResponse, id: string, at: int): (m: Message)
    ensures m.role == Client && m.content == reply.message
    ensures m.metadata == Some(Metadata(Some(reply.emotion)))
  {
    Message(id, Client, reply.message, at, Some(Metadata(Some(reply.emotion))))
  }

  /** `POST /api/chat`. A body that cannot be read answers 500; a missing scenario or a missing or
      empty user message answers 400; a missing history answers 500 (spreading it throws). Reply
      generation itself never fails, so every other request succeeds. */
  function ChatPost(body: Option<ChatRequest>, drawn: ChatDrawn, model: Model,
                    decode: string -> Option<ClientResponse>): (r: ApiResponse<ChatReply>)
    ensures body.None? ==> r == Fail(500, SendFailedMessage)
    ensures body.Some? && IsIncomplete(body.value) ==> r == Fail(400, MissingFieldsMessage)
    ensures body.Some? && !IsIncomplete(body.value) && body.value.messages.None? ==>
              r == Fail(500, SendFailedMessage)
    ensures r.Ok? <==> body.Some? && !IsIncomplete(body.value) && body.value.messages.Some?
    ensures r.Ok? ==>
      var req := body.value;
      var updated := AppendUserMessage(req.messages.value, req.userMessage.value, drawn.userMessageId, drawn.userAt);
      var reply := GenerateClientResponse(req.scenario.value, updated, model, decode);
      && r.data.userMessage == updated[|updated| - 1]
      && r.data.userMessage.role == User && r.data.userMessage.content == req.userMessage.value
      && r.data.clientMessage == ClientMessageFor(reply, drawn.clientMessageId, drawn.clientAt)
      && r.data.emotion == reply.emotion
      && r.data.hints == reply.hints
  {
    match body
    case None => Fail(500, SendFailedMessage)
    case Some(req) =>
      if IsIncomplete(req) then Fail(400, MissingFieldsMessage)
      else if req.messages.None? then Fail(500, SendFailedMessage)
      else
        var updated := AppendUserMessage(req.messages.value, req.userMessage.value, drawn.userMessageId, drawn.userAt);
        var reply := GenerateClientResponse(req.scenario.value, updated, model, decode);
        Ok(ChatReply(updated[|updated| - 1], ClientMessageFor(reply, drawn.clientMessageId, drawn.clientAt),
                     reply.emotion, reply.hints))
  }

  /** A rejected request does not consult the generator: its answer is the same whatever the
      generator and decoder are. */
  lemma RejectionIgnoresGenerator(body: Option<ChatRequest>, drawn: ChatDrawn, m1: Model, m2: Model,
                                  d1: string -> Option<ClientResponse>, d2: string -> Option<ClientResponse>)
    requires body.Some? && IsIncomplete(body.value)
    ensures ChatPost(body, drawn, m1, d1) == ChatPost(body, drawn, m2, d2)
    ensures ChatPost(body, drawn, m1, d1).Status() == 400
  {
  }

  /** The reply is asked for with the whole updated history: the client message is determined by
      the generator's answer to the reply prompt over the old history plus the new message. */
  lemma ReplySeesUpdatedHistory(req: ChatRequest, drawn: ChatDrawn, m1: Model, m2: Model,
                                decode: string -> Option<ClientResponse>)
    requires !IsIncomplete(req) && req.messages.Some?
    requires var updated := req.messages.value + [Message(drawn.userMessageId, User, req.userMessage.value, drawn.userAt, None)];
      m1(ReplyPromptFor(req.scenario.value, updated)) == m2(ReplyPromptFor(req.scenario.value, updated))
    ensures ChatPost(Some(req), drawn, m1, decode) == ChatPost(Some(req), drawn, m2, decode)
  {
    var updated := AppendUserMessage(req.messages.value, req.userMessage.value, drawn.userMessageId, drawn.userAt);
    ReplyDependsOnlyOnItsPrompt(req.scenario.value, updated, m1, m2, decode);
  }

  /** When the generator answers with prose holding no JSON object, the client message is the
      fixed apology and the emotion is `confused`. */
  lemma ProseAnswerGivesApology(req: ChatRequest, drawn: ChatDrawn, model: Model,
                                decode: string -> Option<ClientResponse>)
    requires !IsIncomplete(req) && req.messages.Some?
    requires var updated := req.messages.value + [Message(drawn.userMessageId, User, req.userMessage.value, drawn.userAt, None)];
      var g := model(ReplyPromptFor(req.scenario.value, updated));
      g.Generated? && '{' !in g.text
    ensures var r := ChatPost(Some(req), drawn, model, decode);
      r.Ok? && r.data.clientMessage.content == ReplyFallback.message && r.data.emotion == "confused"
  {
    var updated := AppendUserMessage(req.messages.value, req.userMessage.value, drawn.userMessageId, drawn.userAt);
    NoSpanWithoutBraces(model(ReplyPromptFor(req.scenario.value, updated)).text);
    ReplyFallsBackWithoutSpan(req.scenario.value, updated, model, decode);
  }
}
