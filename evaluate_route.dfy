/** The `/api/evaluate` endpoint: checks that there is enough conversation, evaluates it, and
    stamps the evaluation with the request's session identifier. */
module EvaluateRoute {
  import opened Wrappers
  import opened Types
  import opened Ai

  /** The decoded request body. */
  datatype EvaluateRequest = EvaluateRequest(
    sessionId: string,
    scenario: Option<ScenarioInfo>,
    messages: Option<seq<Message>>)

  const NotEnoughHistoryMessage: string := "評価には十分な会話履歴が必要です"

  const EvaluateFailedMessage: string := "セッションの評価に失敗しました"

  /** The request can be evaluated: a scenario and at least two messages. */
  predicate HasEnoughHistory(req: EvaluateRequest) {
    req.scenario.Some? && req.messages.Some? && |req.messages.value| >= 2
  }

  /** The evaluation with its session identifier overwritten and every other field kept. */
  function StampSessionId(e: SessionEvaluation, sessionId: string): (r: SessionEvaluation)
    ensures r.sessionId == sessionId
    ensures r.(sessionId := e.sessionId) == e
  {
    e.(sessionId := sessionId)
  }

  /** `POST /api/evaluate`. A body that cannot be read answers 500; a missing scenario, a missing
      history or fewer than two messages answer 400; a failed evaluation answers 500; otherwise
      the evaluation is returned carrying the request's session identifier. */
  function EvaluatePost(body: Option<EvaluateRequest>, model: Model,
                        decode: string -> Option<ParsedEvaluation>): (r: ApiResponse<SessionEvaluation>)
    ensures body.None? ==> r == Fail(500, EvaluateFailedMessage)
    ensures body.Some? && !HasEnoughHistory(body.value) ==> r == Fail(400, NotEnoughHistoryMessage)
    ensures body.Some? && HasEnoughHistory(body.value) ==>
      var e := EvaluateSession(body.value.scenario.value, body.value.messages.value, model, decode);
      && (e.Failure? ==> r == Fail(500, EvaluateFailedMessage))
      && (e.Success? ==> r.Ok? && r.data.sessionId == body.value.sessionId
                         && r.data.(sessionId := e.value.sessionId) == e.value)
  {
    match body
    case None => Fail(500, EvaluateFailedMessage)
    case Some(req) =>
      if !HasEnoughHistory(req) then Fail(400, NotEnoughHistoryMessage)
      else
        match EvaluateSession(req.scenario.value, req.messages.value, model, decode)
        case Failure(_) => Fail(500, EvaluateFailedMessage)
        case Success(e) => Ok(StampSessionId(e, req.sessionId))
  }

  /** Whatever session identifier the generator's evaluation carried, or none, the answer carries
      the request's; the score is the generator's. */
  lemma SessionIdComesFromRequest(req: EvaluateRequest, model: Model,
                                  decode: string -> Option<ParsedEvaluation>)
    requires HasEnoughHistory(req)
    requires DecodeAnswer(model(EvaluationPromptFor(req.scenario.value, req.messages.value)), decode).Some?
    ensures var r := EvaluatePost(Some(req), model, decode);
      var p := DecodeAnswer(model(EvaluationPromptFor(req.scenario.value, req.messages.value)), decode).value;
      r.Ok? && r.data.sessionId == req.sessionId && r.data.overallScore == p.overallScore
      && r.data.results == p.results
  {
  }

  /** A transcript with no JSON object in the generator's answer makes the evaluation fail with 500. */
  lemma ProseAnswerFails(req: EvaluateRequest, model: Model, decode: string -> Option<ParsedEvaluation>)
    requires HasEnoughHistory(req)
    requires var g := model(EvaluationPromptFor(req.scenario.value, req.messages.value));
      g.Generated? && '{' !in g.text
    ensures EvaluatePost(Some(req), model, decode) == Fail(500, EvaluateFailedMessage)
  {
    NoSpanWithoutBraces(model(EvaluationPromptFor(req.scenario.value, req.messages.value)).text);
  }

  /** Fewer than two messages are rejected with 400 whatever the scenario, without consulting the
      generator. */
  lemma ShortHistoryRejected(req: EvaluateRequest, m1: Model, m2: Model,
                             d1: string -> Option<ParsedEvaluation>, d2: string -> Option<ParsedEvaluation>)
    requires req.messages.Some? && |req.messages.value| < 2
    ensures EvaluatePost(Some(req), m1, d1) == EvaluatePost(Some(req), m2, d2) == Fail(400, NotEnoughHistoryMessage)
  {
  }
}
