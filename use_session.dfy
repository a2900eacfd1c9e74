/** The browser-side session state holder: at most one session, a loading flag, the last
    error and the evaluation, updated by four operations run one at a time. Each request
    travels to its endpoint through a `fetch`, modelled as a function from the request body to
    what the call produced. */
module SessionHook {
  import opened Wrappers
  import opened Types
  import opened Ai
  import SessionsRoute
  import ChatRoute
  import EvaluateRoute
  import ChatView

  /** What a failing `fetch` or `response.json()` throws: an `Error` with its message, or some
      other value. */
  datatype Thrown = ErrorObject(message: string) | NonError

  /** The outcome of one round trip: the decoded response body, or a thrown value. */
  datatype Fetched<T> = Delivered(response: ApiResponse<T>) | Threw(cause: Thrown)

  const StartFailedText: string := "セッションの開始に失敗しました"
  const SendFailedText: string := "メッセージの送信に失敗しました"
  const EvaluateFailedText: string := "評価に失敗しました"

  /** The data of a successful round trip. */
  function Payload<T>(f: Fetched<T>): Option<T> {
    if f.Delivered? && f.response.Ok? then Some(f.response.data) else None
  }

  /** The error text a failed round trip leaves: the server's error (rethrown as an `Error`), the
      thrown `Error`'s message, or the operation's fixed text for any other thrown value. */
  function FailureText<T>(f: Fetched<T>, fallback: string): string
    requires Payload(f).None?
  {
    match f
    case Delivered(resp) => resp.error
    case Threw(ErrorObject(message)) => message
    case Threw(NonError) => fallback
  }

  /** The body `startSession` posts; `JSON.stringify` leaves out an absent category. */
  function StartRequest(category: Option<Category>, difficulty: Option<int>): SessionsRoute.CreateSessionRequest {
    SessionsRoute.CreateSessionRequest(if category.Some? then Some(category.value.Key()) else None, difficulty)
  }

  /** The body `sendMessage` posts: the session's scenario and history and the new message. */
  function SendRequest(s: SessionState, message: string): ChatRoute.ChatRequest {
    ChatRoute.ChatRequest(Some(s.scenario), Some(s.messages), Some(message))
  }

  /** The body `evaluateCurrentSession` posts. */
  function EvaluateRequest(s: SessionState): EvaluateRoute.EvaluateRequest {
    EvaluateRoute.EvaluateRequest(s.sessionId, Some(s.scenario), Some(s.messages))
  }

  class SessionStore {
    var session: Option<SessionState>
    var loading: bool
    var error: Option<string>
    var evaluation: Option<SessionEvaluation>

    /** Between operations nothing is loading, and an evaluation is only held for a session that
        it completed. */
    ghost predicate Valid()
      reads this
    {
      && !loading
      && (evaluation.Some? ==> session.Some? && session.value.status == Completed)
    }

    /** The hook's initial state. */
    constructor ()
      ensures Valid()
      ensures session == None && !loading && error == None && evaluation == None
    {
      session, loading, error, evaluation := None, false, None, None;
    }

    /** `startSession`: clears the error and the evaluation, then either replaces the session
        wholesale with the one received or records the error and keeps the old session. */
    method StartSession(category: Option<Category>, difficulty: Option<int>,
                        fetch: SessionsRoute.CreateSessionRequest -> Fetched<SessionState>)
      requires Valid()
      modifies this
      ensures Valid()
      ensures evaluation == None
      ensures var f := fetch(StartRequest(category, difficulty));
        && (Payload(f).Some? ==> session == Payload(f) && error == None)
        && (Payload(f).None? ==> session == old(session) && error == Some(FailureText(f, StartFailedText)))
    {
      loading := true;
      error := None;
      evaluation := None;
      var f := fetch(StartRequest(category, difficulty));
      if f.Delivered? && f.response.Ok? {
        session := Some(f.response.data);
      } else {
        error := Some(FailureText(f, StartFailedText));
      }
      loading := false;
    }

    /** `sendMessage`: without a session nothing changes. Otherwise, on success, the messages
        become the old ones followed by the confirmed user message and the client message (the
        rest of the session is kept) and the payload is returned; on failure the session is
        kept and the error recorded. */
    method SendMessage(message: string, fetch: ChatRoute.ChatRequest -> Fetched<ChatRoute.ChatReply>)
      returns (result: Option<ChatRoute.ChatReply>)
      requires Valid()
      modifies this
      ensures Valid()
      ensures evaluation == old(evaluation)
      ensures old(session).None? ==> session == None && error == old(error) && result == None
      ensures old(session).Some? ==>
        var f := fetch(SendRequest(old(session).value, message));
        && result == Payload(f)
        && (result.Some? ==>
              && session == Some(old(session).value.(messages :=
                   old(session).value.messages + [result.value.userMessage, result.value.clientMessage]))
              && error == None)
        && (result.None? ==> session == old(session) && error == Some(FailureText(f, SendFailedText)))
    {
      if session.None? {
        return None;
      }
      loading := true;
      error := None;
      var current := session.value;
      var f := fetch(SendRequest(current, message));
      if f.Delivered? && f.response.Ok? {
        var reply := f.response.data;
        session := Some(current.(messages := current.messages + [reply.userMessage, reply.clientMessage]));
        result := Some(reply);
      } else {
        error := Some(FailureText(f, SendFailedText));
        result := None;
      }
      loading := false;
    }

    /** `evaluateCurrentSession`: without a session nothing changes. Otherwise, on success, the
        evaluation is stored and the session marked completed with its messages untouched; on
        failure the session is kept and the error recorded. */
    method EvaluateCurrentSession(fetch: EvaluateRoute.EvaluateRequest -> Fetched<SessionEvaluation>)
      returns (result: Option<SessionEvaluation>)
      requires Valid()
      modifies this
      ensures Valid()
      ensures old(session).None? ==> session == None && error == old(error)
                                      && evaluation == old(evaluation) && result == None
      ensures old(session).Some? ==>
        var f := fetch(EvaluateRequest(old(session).value));
        && result == Payload(f)
        && (result.Some? ==>
              && evaluation == result
              && session == Some(old(session).value.(status := Completed))
              && error == None)
        && (result.None? ==>
              && session == old(session) && evaluation == old(evaluation)
              && error == Some(FailureText(f, EvaluateFailedText)))
    {
      if session.None? {
        return None;
      }
      loading := true;
      error := None;
      var current := session.value;
      var f := fetch(EvaluateRequest(current));
      if f.Delivered? && f.response.Ok? {
        evaluation := Some(f.response.data);
        session := Some(current.(status := Completed));
        result := evaluation;
      } else {
        error := Some(FailureText(f, EvaluateFailedText));
        result := None;
      }
      loading := false;
    }

    /** `resetSession`: forgets the session, the evaluation and the error. */
    method ResetSession()
      requires Valid()
      modifies this
      ensures Valid()
      ensures session == None && evaluation == None && error == None && loading == old(loading)
    {
      session := None;
      evaluation := None;
      error := None;
    }
  }

  /** The requests the hook sends pass the endpoints' validation: a chat request is rejected only
      for an empty message, and an evaluate request only for a history shorter than two. */
  lemma HookRequestsValidate(s: SessionState, message: string)
    ensures ChatRoute.IsIncomplete(SendRequest(s, message)) <==> message == ""
    ensures SendRequest(s, message).messages == Some(s.messages)
    ensures EvaluateRoute.HasEnoughHistory(EvaluateRequest(s)) <==> |s.messages| >= 2
    ensures EvaluateRequest(s).sessionId == s.sessionId
  {
  }

  /** A category the hook is asked for reaches the sessions endpoint as its key, which the
      endpoint keeps and maps back to the same category. */
  lemma StartRequestKeepsCategory(c: Category, difficulty: Option<int>, rand: real)
    requires 0.0 <= rand < 1.0
    ensures var key := SessionsRoute.SelectCategory(StartRequest(Some(c), difficulty).category, rand);
      key == c.Key() && ParseCategory(key) == Some(c)
    ensures StartRequest(Some(c), difficulty).difficulty == difficulty
  {
    ParseCategoryKey(c);
    CategoryTableComplete();
  }

  /** A send that reaches the chat endpoint and succeeds adds exactly one developer turn, holding
      the message sent, followed by one client message, and keeps the earlier history. */
  lemma SendThroughChatAddsOneTurn(s: SessionState, message: string, drawn: ChatRoute.ChatDrawn,
                                   model: Model, decode: string -> Option<ClientResponse>)
    requires ChatRoute.ChatPost(Some(SendRequest(s, message)), drawn, model, decode).Ok?
    ensures var d := ChatRoute.ChatPost(Some(SendRequest(s, message)), drawn, model, decode).data;
      var after := s.messages + [d.userMessage, d.clientMessage];
      && |after| == |s.messages| + 2
      && after[..|s.messages|] == s.messages
      && after[|s.messages|].role == User && after[|s.messages|].content == message
      && after[|s.messages| + 1].role == Client
      && ChatView.UserMessageCount(after) == ChatView.UserMessageCount(s.messages) + 1
  {
    var d := ChatRoute.ChatPost(Some(SendRequest(s, message)), drawn, model, decode).data;
    ChatView.UserMessageCountAppend(s.messages, [d.userMessage, d.clientMessage]);
    ChatView.UserMessageCountAppend([d.userMessage], [d.clientMessage]);
    assert [d.userMessage] + [d.clientMessage] == [d.userMessage, d.clientMessage];
  }

  /** A session the sessions endpoint creates is in progress with two messages and no developer
      turn yet, so the finish gate starts closed. */
  lemma CreatedSessionStartsFresh(body: Option<SessionsRoute.CreateSessionRequest>, rand: real,
                                  drawn: SessionsRoute.Drawn, model: Model,
                                  decode: string -> Option<GeneratedScenario>)
    requires 0.0 <= rand < 1.0
    requires SessionsRoute.CreateSession(body, rand, drawn, model, decode).Ok?
    ensures var s := SessionsRoute.CreateSession(body, rand, drawn, model, decode).data;
      && s.status == InProgress && |s.messages| == 2
      && ChatView.UserMessageCount(s.messages) == 0
      && !ChatView.FinishEnabled(ChatView.UserMessageCount(s.messages), false)
  {
    var s := SessionsRoute.CreateSession(body, rand, drawn, model, decode).data;
    ChatView.UserMessageCountAppend([s.messages[0]], [s.messages[1]]);
    assert [s.messages[0]] + [s.messages[1]] == s.messages;
  }
}
