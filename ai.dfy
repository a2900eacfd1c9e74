/** The generation service layer: four calls to a hosted text generator, the extraction of a
    JSON object from its free-text answer, the two transcript renderings the prompts embed, and
    the failure policy of each call site (reply and opening fall back to fixed values, scenario
    and evaluation generation fail). The generator and the JSON decoder are parameters. */
module Ai {
  import opened Wrappers
  import opened Strings
  import opened Types

  /** What one call to the generator yields: its text, or a failure of any kind (network,
      service, or reading the answer). */
  datatype Generation = Generated(text: string) | GenerationFailed

  /** The values each prompt template interpolates; the fixed wording around them is not modelled. */
  datatype Prompt =
    | ScenarioPrompt(categoryDescription: string, difficulty: int)
    | OpeningPrompt(clientPersona: string, projectContext: string)
    | ReplyPrompt(clientPersona: string, projectContext: string, conversation: string)
    | EvaluationPrompt(title: string, description: string, clientPersona: string,
                       projectContext: string, conversation: string)

  /** The hosted generator, as a function of the prompt it is given. */
  type Model = Prompt -> Generation

  /** A scenario as decoded from the generator. */
  datatype GeneratedScenario = GeneratedScenario(
    title: string,
    description: string,
    clientPersona: string,
    projectContext: string,
    hiddenRequirements: seq<string>)

  /** An evaluation as decoded from the generator; it may or may not carry a `sessionId`. */
  datatype ParsedEvaluation = ParsedEvaluation(
    sessionId: Option<string>,
    overallScore: int,
    results: seq<EvaluationResult>,
    strengths: Option<seq<string>>,
    improvements: Option<seq<string>>,
    recommendations: Option<seq<string>>)

  // ---------------------------------------------------------------------------------------------
  // Extraction of the JSON object

  /** The text `s[i..j+1]` is a match of the pattern `\{[\s\S]*\}`: an opening brace, anything,
      and a closing brace. */
  ghost predicate BraceSpanAt(s: string, i: int, j: int) {
    0 <= i < j < |s| && s[i] == '{' && s[j] == '}'
  }

  /** The match the pattern `\{[\s\S]*\}` finds in `response`: the leftmost match, extended as far
      as the greedy `[\s\S]*` allows, i.e. from the first `{` to the last `}`. There is a match
      exactly when some `{` comes before some `}`. */
  function ExtractJsonSpan(response: string): (r: Option<string>)
    ensures r.None? <==> forall i, j :: !BraceSpanAt(response, i, j)
    ensures r.Some? ==> exists i, j :: && BraceSpanAt(response, i, j)
                                       && r.value == response[i..j + 1]
                                       && forall i', j' :: BraceSpanAt(response, i', j') ==> i <= i' && j' <= j
  {
    var open := IndexOf(response, '{');
    var close := LastIndexOf(response, '}');
    if open < close then
      assert BraceSpanAt(response, open, close);
      Some(response[open..close + 1])
    else
      None
  }

  /** The extracted text is itself one match of the pattern: it begins with `{` and ends with `}`. */
  lemma ExtractedSpanIsBraced(response: string)
    requires ExtractJsonSpan(response).Some?
    ensures var t := ExtractJsonSpan(response).value;
      |t| >= 2 && t[0] == '{' && t[|t| - 1] == '}'
  {
    var t := ExtractJsonSpan(response).value;
    var i, j :| BraceSpanAt(response, i, j) && t == response[i..j + 1];
    assert t[0] == response[i] && t[|t| - 1] == response[j];
  }

  /** Text lacking an opening or a closing brace has no match. */
  lemma NoSpanWithoutBraces(response: string)
    requires '{' !in response || '}' !in response
    ensures ExtractJsonSpan(response).None?
  {
  }

  // ---------------------------------------------------------------------------------------------
  // Transcripts

  /** Label of a message in the reply prompt: the developer, or (for every other role) the client. */
  function ReplyLabel(r: Role): (tag: string)
    ensures tag == "開発者" <==> r.User?
    ensures tag == "クライアント" <==> !r.User?
  {
    if r.User? then "開発者" else "クライアント"
  }

  /** Label of a message in the evaluation prompt: developer, client or system. */
  function EvaluationLabel(r: Role): (tag: string)
    ensures tag == "開発者" <==> r.User?
    ensures tag == "クライアント" <==> r.Client?
    ensures tag == "システム" <==> r.System?
  {
    match r
    case User => "開発者"
    case Client => "クライアント"
    case System => "システム"
  }

  /** `tag: content`, one line of a transcript. */
  function TranscriptLine(tag: string, m: Message): string {
    tag + ": " + m.content
  }

  function ReplyLines(ms: seq<Message>): (lines: seq<string>)
    ensures |lines| == |ms|
    ensures forall i :: 0 <= i < |ms| ==> lines[i] == TranscriptLine(ReplyLabel(ms[i].role), ms[i])
  {
    seq(|ms|, i requires 0 <= i < |ms| => TranscriptLine(ReplyLabel(ms[i].role), ms[i]))
  }

  function EvaluationLines(ms: seq<Message>): (lines: seq<string>)
    ensures |lines| == |ms|
    ensures forall i :: 0 <= i < |ms| ==> lines[i] == TranscriptLine(EvaluationLabel(ms[i].role), ms[i])
  {
    seq(|ms|, i requires 0 <= i < |ms| => TranscriptLine(EvaluationLabel(ms[i].role), ms[i]))
  }

  /** Rendering is message by message: the lines of a concatenated history are the lines of its
      parts, one after the other. */
  lemma ReplyLinesAppend(a: seq<Message>, b: seq<Message>)
    ensures ReplyLines(a + b) == ReplyLines(a) + ReplyLines(b)
  {
    var l := ReplyLines(a + b);
    forall i | 0 <= i < |l| ensures l[i] == (ReplyLines(a) + ReplyLines(b))[i] {
      if i < |a| { assert (a + b)[i] == a[i]; } else { assert (a + b)[i] == b[i - |a|]; }
    }
  }

  lemma EvaluationLinesAppend(a: seq<Message>, b: seq<Message>)
    ensures EvaluationLines(a + b) == EvaluationLines(a) + EvaluationLines(b)
  {
    var l := EvaluationLines(a + b);
    forall i | 0 <= i < |l| ensures l[i] == (EvaluationLines(a) + EvaluationLines(b))[i] {
      if i < |a| { assert (a + b)[i] == a[i]; } else { assert (a + b)[i] == b[i - |a|]; }
    }
  }

  /** The conversation as the reply prompt shows it: one labelled line per message, joined by `\n`. */
  function ReplyTranscript(ms: seq<Message>): string {
    Join(ReplyLines(ms), "\n")
  }

  /** The conversation as the evaluation prompt shows it: one labelled line per message, joined by `\n`. */
  function EvaluationTranscript(ms: seq<Message>): string {
    Join(EvaluationLines(ms), "\n")
  }

  predicate SingleLine(m: Message) {
    '\n' !in m.content
  }

  /** When no message spans several lines, splitting the reply transcript at line breaks gives
      back exactly one line per message, in order, each with its tag. */
  lemma ReplyTranscriptLines(ms: seq<Message>)
    requires |ms| >= 1
    requires forall i :: 0 <= i < |ms| ==> SingleLine(ms[i])
    ensures Split(ReplyTranscript(ms), '\n') == ReplyLines(ms)
  {
    var lines := ReplyLines(ms);
    forall i | 0 <= i < |lines| ensures '\n' !in lines[i] {
      LineIsSingle(ReplyLabel(ms[i].role), ms[i]);
    }
    SplitJoin(lines, '\n');
  }

  /** The same for the evaluation transcript. */
  lemma EvaluationTranscriptLines(ms: seq<Message>)
    requires |ms| >= 1
    requires forall i :: 0 <= i < |ms| ==> SingleLine(ms[i])
    ensures Split(EvaluationTranscript(ms), '\n') == EvaluationLines(ms)
  {
    var lines := EvaluationLines(ms);
    forall i | 0 <= i < |lines| ensures '\n' !in lines[i] {
      LineIsSingle(EvaluationLabel(ms[i].role), ms[i]);
    }
    SplitJoin(lines, '\n');
  }

  lemma LineIsSingle(tag: string, m: Message)
    requires tag in {"開発者", "クライアント", "システム"}
    requires SingleLine(m)
    ensures '\n' !in TranscriptLine(tag, m)
  {
    var line := TranscriptLine(tag, m);
    forall k | 0 <= k < |line| ensures line[k] != '\n' {
      if k < |tag| { assert line[k] == tag[k]; }
      else if k < |tag| + 2 { assert line[k] == ": "[k - |tag|]; }
      else { assert line[k] == m.content[k - |tag| - 2]; }
    }
  }

  /** The line breaks inside the messages' contents. */
  function MessageBreaks(ms: seq<Message>): nat
    decreases |ms|
  {
    if |ms| == 0 then 0 else Count(ms[0].content, '\n') + MessageBreaks(ms[1..])
  }

  /** A tag and `: ` add no line break to a message's content. */
  lemma LineBreaks(tag: string, m: Message)
    requires tag in {"開発者", "クライアント", "システム"}
    ensures Count(TranscriptLine(tag, m), '\n') == Count(m.content, '\n')
  {
    var head := tag + ": ";
    forall k | 0 <= k < |head| ensures head[k] != '\n' {
      if k < |tag| { assert head[k] == tag[k]; } else { assert head[k] == ": "[k - |tag|]; }
    }
    assert TranscriptLine(tag, m) == head + m.content;
    CountAppend(head, m.content, '\n');
  }

  /** Lines that hold as many breaks as their messages sum to the messages' breaks. */
  lemma {:induction false} SumLineBreaks(lines: seq<string>, ms: seq<Message>)
    requires |lines| == |ms|
    requires forall i :: 0 <= i < |ms| ==> Count(lines[i], '\n') == Count(ms[i].content, '\n')
    ensures SumCounts(lines, '\n') == MessageBreaks(ms)
    decreases |ms|
  {
    if |ms| > 0 {
      SumLineBreaks(lines[1..], ms[1..]);
    }
  }

  /** For every history, the reply transcript holds one line break between each two messages
      plus those inside the contents, so it splits into one piece per message and one more per
      break inside a content. */
  lemma ReplyTranscriptBreaks(ms: seq<Message>)
    ensures |ms| == 0 ==> ReplyTranscript(ms) == ""
    ensures |ms| >= 1 ==> Count(ReplyTranscript(ms), '\n') == |ms| - 1 + MessageBreaks(ms)
    ensures |ms| >= 1 ==> |Split(ReplyTranscript(ms), '\n')| == |ms| + MessageBreaks(ms)
  {
    var lines := ReplyLines(ms);
    forall i | 0 <= i < |ms| ensures Count(lines[i], '\n') == Count(ms[i].content, '\n') {
      LineBreaks(ReplyLabel(ms[i].role), ms[i]);
    }
    SumLineBreaks(lines, ms);
    JoinCount(lines, '\n');
    SplitCount(ReplyTranscript(ms), '\n');
  }

  /** The same for the evaluation transcript. */
  lemma EvaluationTranscriptBreaks(ms: seq<Message>)
    ensures |ms| == 0 ==> EvaluationTranscript(ms) == ""
    ensures |ms| >= 1 ==> Count(EvaluationTranscript(ms), '\n') == |ms| - 1 + MessageBreaks(ms)
    ensures |ms| >= 1 ==> |Split(EvaluationTranscript(ms), '\n')| == |ms| + MessageBreaks(ms)
  {
    var lines := EvaluationLines(ms);
    forall i | 0 <= i < |ms| ensures Count(lines[i], '\n') == Count(ms[i].content, '\n') {
      LineBreaks(EvaluationLabel(ms[i].role), ms[i]);
    }
    SumLineBreaks(lines, ms);
    JoinCount(lines, '\n');
    SplitCount(EvaluationTranscript(ms), '\n');
  }

  /** The two renderings differ only on system messages: without one they are the same text,
      and a system message is shown as the client's in the reply transcript but as the system's
      in the evaluation transcript. */
  lemma TranscriptsAgreeWithoutSystem(ms: seq<Message>)
    requires forall i :: 0 <= i < |ms| ==> ms[i].role != System
    ensures ReplyTranscript(ms) == EvaluationTranscript(ms)
  {
    assert ReplyLines(ms) == EvaluationLines(ms);
  }

  // ---------------------------------------------------------------------------------------------
  // The four calls

  const ReplyFallback: ClientResponse :=
    ClientResponse("すみません、もう少し詳しく説明していただけますか？", "confused", None)

  const OpeningFallback: string :=
    "よろしくお願いします。プロジェクトについてご相談したいことがあるのですが..."

  const EvaluationFailed: string := "Failed to evaluate session"

  const ScenarioFailed: string := "Failed to generate scenario"

  function ReplyPromptFor(scenario: ScenarioInfo, ms: seq<Message>): Prompt {
    ReplyPrompt(scenario.clientPersona, scenario.projectContext, ReplyTranscript(ms))
  }

  function EvaluationPromptFor(scenario: ScenarioInfo, ms: seq<Message>): Prompt {
    EvaluationPrompt(scenario.title, scenario.description, scenario.clientPersona,
                     scenario.projectContext, EvaluationTranscript(ms))
  }

  /** What decoding the generator's answer yields: nothing when the call failed, when the answer
      holds no brace span, or when the span does not decode. */
  function DecodeAnswer<T>(g: Generation, decode: string -> Option<T>): (r: Option<T>)
    ensures g.GenerationFailed? ==> r.None?
    ensures g.Generated? && ExtractJsonSpan(g.text).None? ==> r.None?
    ensures r.Some? ==> g.Generated? && ExtractJsonSpan(g.text).Some?
                        && decode(ExtractJsonSpan(g.text).value) == r
    ensures g.Generated? && ExtractJsonSpan(g.text).Some? ==> r == decode(ExtractJsonSpan(g.text).value)
  {
    match g
    case GenerationFailed => None
    case Generated(text) =>
      match ExtractJsonSpan(text)
      case None => None
      case Some(span) => decode(span)
  }

  /** The client's reply to the conversation so far. It never fails: whatever goes wrong, the
      reply is the fixed confused apology. */
  function GenerateClientResponse(scenario: ScenarioInfo, ms: seq<Message>, model: Model,
                                  decode: string -> Option<ClientResponse>): (r: ClientResponse)
    ensures DecodeAnswer(model(ReplyPromptFor(scenario, ms)), decode).None? ==> r == ReplyFallback
    ensures DecodeAnswer(model(ReplyPromptFor(scenario, ms)), decode).Some? ==>
              r == DecodeAnswer(model(ReplyPromptFor(scenario, ms)), decode).value
  {
    DecodeAnswer(model(ReplyPromptFor(scenario, ms)), decode).GetOr(ReplyFallback)
  }

  /** The reply is the fallback whenever the conversation prompt's answer holds no brace span. */
  lemma ReplyFallsBackWithoutSpan(scenario: ScenarioInfo, ms: seq<Message>, model: Model,
                                  decode: string -> Option<ClientResponse>)
    requires var g := model(ReplyPromptFor(scenario, ms)); g.GenerationFailed? || ExtractJsonSpan(g.text).None?
    ensures GenerateClientResponse(scenario, ms, model, decode) == ReplyFallback
    ensures GenerateClientResponse(scenario, ms, model, decode).emotion == Emotion.Confused.Name()
  {
  }

  /** The reply depends on the generator only through its answer to the one reply prompt. */
  lemma ReplyDependsOnlyOnItsPrompt(scenario: ScenarioInfo, ms: seq<Message>, m1: Model, m2: Model,
                                    decode: string -> Option<ClientResponse>)
    requires m1(ReplyPromptFor(scenario, ms)) == m2(ReplyPromptFor(scenario, ms))
    ensures GenerateClientResponse(scenario, ms, m1, decode) == GenerateClientResponse(scenario, ms, m2, decode)
  {
  }

  /** The client's opening statement: the trimmed answer, or the fixed greeting on any failure. */
  function GenerateInitialClientMessage(scenario: ScenarioInfo, model: Model): (r: string)
    ensures model(OpeningPrompt(scenario.clientPersona, scenario.projectContext)).GenerationFailed? ==>
              r == OpeningFallback
    ensures model(OpeningPrompt(scenario.clientPersona, scenario.projectContext)).Generated? ==>
              r == Trim(model(OpeningPrompt(scenario.clientPersona, scenario.projectContext)).text)
  {
    match model(OpeningPrompt(scenario.clientPersona, scenario.projectContext))
    case Generated(text) => Trim(text)
    case GenerationFailed => OpeningFallback
  }

  /** A generated opening never starts or ends with whitespace. */
  lemma OpeningIsTrimmed(scenario: ScenarioInfo, model: Model)
    ensures var r := GenerateInitialClientMessage(scenario, model);
      r != [] ==> !IsWhitespace(r[0]) && !IsWhitespace(r[|r| - 1])
  {
    var r := GenerateInitialClientMessage(scenario, model);
    if model(OpeningPrompt(scenario.clientPersona, scenario.projectContext)).GenerationFailed? {
      assert r == OpeningFallback;
      assert r[0] == 'よ' && r[|r| - 1] == '.';
    }
  }

  /** The decoded evaluation with `sessionId` defaulting to the empty string: a default placed
      before the spread of the decoded object, so a decoded `sessionId` wins. */
  function WithDefaultSessionId(p: ParsedEvaluation): (e: SessionEvaluation)
    ensures p.sessionId.Some? ==> e.sessionId == p.sessionId.value
    ensures p.sessionId.None? ==> e.sessionId == ""
    ensures e.overallScore == p.overallScore && e.results == p.results && e.strengths == p.strengths
    ensures e.improvements == p.improvements && e.recommendations == p.recommendations
  {
    SessionEvaluation(p.sessionId.GetOr(""), p.overallScore, p.results, p.strengths,
                      p.improvements, p.recommendations)
  }

  /** The evaluation of a transcript; any failure becomes the error "Failed to evaluate session". */
  function EvaluateSession(scenario: ScenarioInfo, ms: seq<Message>, model: Model,
                           decode: string -> Option<ParsedEvaluation>): (r: Result<SessionEvaluation>)
    ensures r.Failure? <==> DecodeAnswer(model(EvaluationPromptFor(scenario, ms)), decode).None?
    ensures r.Failure? ==> r.error == EvaluationFailed
    ensures r.Success? ==> r.value == WithDefaultSessionId(DecodeAnswer(model(EvaluationPromptFor(scenario, ms)), decode).value)
  {
    match DecodeAnswer(model(EvaluationPromptFor(scenario, ms)), decode)
    case None => Failure(EvaluationFailed)
    case Some(p) => Success(WithDefaultSessionId(p))
  }

  // ---------------------------------------------------------------------------------------------
  // Scenario generation

  /** The description of a category the scenario prompt uses (a table of its own, distinct from
      the category table's descriptions); an unknown category is described by its raw key. */
  function CategoryDescription(category: string): (r: string)
    ensures ParseCategory(category).None? ==> r == category
    ensures ParseCategory(category).Some? ==> r == ScenarioBlurb(ParseCategory(category).value) && r != ""
  {
    match ParseCategory(category)
    case Some(c) => ScenarioBlurb(c)
    case None => category
  }

  function ScenarioBlurb(c: Category): string {
    match c
    case RequirementConfirmation => "要件確認のシナリオ。クライアントの曖昧な要望から具体的な要件を引き出す"
    case TechnicalTranslation => "技術翻訳のシナリオ。技術的な内容を非エンジニアに説明する"
    case AmbiguityStructuring => "曖昧さの構造化シナリオ。抽象的な要望を具体化する"
    case ResponsibilityClarification => "責任範囲の明確化シナリオ。誰が何を担当するか明確にする"
    case ConsensusBuilding => "合意形成のシナリオ。クライアントとの合意を文書化する"
  }

  function ScenarioPromptFor(category: string, difficulty: int): Prompt {
    ScenarioPrompt(CategoryDescription(category), difficulty)
  }

  /** A new scenario for a category and difficulty; any failure becomes the error
      "Failed to generate scenario", with no fallback. */
  function GenerateScenario(category: string, difficulty: int, model: Model,
                            decode: string -> Option<GeneratedScenario>): (r: Result<GeneratedScenario>)
    ensures r.Failure? <==> DecodeAnswer(model(ScenarioPromptFor(category, difficulty)), decode).None?
    ensures r.Failure? ==> r.error == ScenarioFailed
    ensures r.Success? ==> Some(r.value) == DecodeAnswer(model(ScenarioPromptFor(category, difficulty)), decode)
  {
    match DecodeAnswer(model(ScenarioPromptFor(category, difficulty)), decode)
    case None => Failure(ScenarioFailed)
    case Some(g) => Success(g)
  }
}
