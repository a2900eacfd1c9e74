# Client-communication training app: a verified model of its core rules

The application trains web-contract developers to talk to clients. A hosted text generator plays
the client. The developer chats with it inside a generated scenario and then receives a scored
evaluation. This project models the deterministic rules around the generator:

- extracting JSON from the generator's answer, rendering the transcripts the prompts embed, and
  deciding per call site whether a failure falls back or propagates (`Ai`);
- the three HTTP endpoints as pure request-to-response functions (`SessionsRoute`, `ChatRoute`,
  `EvaluateRoute`);
- the client-side session hook as a class whose methods update its four fields (`SessionHook`);
- the chat screen's submit and finish gates (`ChatView`), and the evaluation screen's score
  bands and its text and CSV reports, built by appending in loops (`EvaluationReport`);
- the shared data types and the category table (`Types`), with the string operations they need
  (`Strings`) and `Option`/`Result` (`Wrappers`).

The generator is a function parameter `Model = Prompt -> Generation`. A `Prompt` records only the
values a call site interpolates into its fixed template. `JSON.parse` followed by an unchecked
`as` cast is a decoder parameter `string -> Option<T>`. Random draws, fresh identifiers and clock
readings are also parameters. Over in the client, `fetch` is modelled as a function from the
request to either a delivered `ApiResponse` or a thrown value.

## Model

| member | source | states |
|---|---|---|
| Strings.Trim | src/backend/services/ai.ts:179 | `trim` gives the empty text exactly when the input is all ECMAScript whitespace; otherwise the result starts and ends with a non-whitespace character |
| Strings.TrimSpan | src/backend/services/ai.ts:179 | the trimmed text is the contiguous part of the input left after removing its leading and trailing whitespace: everything before and after it is whitespace |
| Strings.TrimIdempotent | src/components/ChatInterface.tsx:38-40 | trimming an already trimmed text changes nothing, so the message sent still passes the submit gate |
| Strings.JoinCount | src/backend/services/ai.ts:15 | joining texts with a one-character separator adds exactly one separator between each two texts to the separators they already hold |
| Strings.SplitCount | src/backend/services/ai.ts:15 | splitting at a character gives exactly one piece more than the character's occurrences |
| Strings.SplitJoin | src/backend/services/ai.ts:15 | joining break-free lines with a separator and splitting on it again gives back the lines |
| Strings.ParseNatToString | src/components/EvaluationResult.tsx:29 | the decimal rendering of a score reads back as the same number |
| Strings.IntToString | src/components/EvaluationResult.tsx:29 | a rendered integer is non-empty, starts with `-` exactly when it is negative, and is otherwise made of decimal digits |
| Strings.IntToStringPlain | src/components/EvaluationResult.tsx:83 | a rendered number holds no line break, comma or quote, so it fills exactly one CSV cell |
| Types.CategoryIndex | src/backend/types/index.ts:9-35 | every category has a position in the table |
| Types.CategoryTableComplete | src/backend/types/index.ts:2-35 | the table has exactly five entries, one per category, with distinct keys and non-empty name, Japanese name and description (one category at a time: `Types.KeysDiffer`, `Types.InfoFilled`) |
| Types.ParseCategory | src/backend/types/index.ts:9-35 | looking a key up finds the category whose key it is, and fails exactly when no category has that key |
| Types.ParseCategoryKey | src/backend/types/index.ts:9-35 | looking up a category's own key finds that category |
| Ai.ExtractJsonSpan | src/backend/services/ai.ts:49-52 | the greedy match fails exactly when no `{` occurs before a `}`; on success it is a contiguous span from a `{` to a `}` that contains every other such span (first `{` to last `}`) |
| Ai.ExtractedSpanIsBraced | src/backend/services/ai.ts:49 | the extracted text is itself a match: at least two characters, starting with `{` and ending with `}` |
| Ai.NoSpanWithoutBraces | src/backend/services/ai.ts:49-52 | an answer lacking `{` or `}` yields no match |
| Ai.ReplyLabel | src/backend/services/ai.ts:14 | the reply transcript labels `user` as 開発者 and every other role, `system` included, as クライアント |
| Ai.EvaluationLabel | src/backend/services/ai.ts:72-74 | the evaluation transcript labels user 開発者, client クライアント and system システム, each exactly for its role |
| Ai.ReplyLinesAppend | src/backend/services/ai.ts:13-14 | the lines of a concatenated history are the lines of its parts, one after the other, so a message's line depends on that message alone (`Ai.ReplyLines` gives one labelled line per message) |
| Ai.EvaluationLinesAppend | src/backend/services/ai.ts:71-75 | the same for the three-way labelled lines (`Ai.EvaluationLines`) |
| Ai.ReplyTranscriptLines | src/backend/services/ai.ts:13-15 | splitting the reply transcript (`Ai.ReplyTranscript`) at line breaks gives back one line per message when no content holds a line break |
| Ai.EvaluationTranscriptLines | src/backend/services/ai.ts:71-76 | the same for the evaluation transcript (`Ai.EvaluationTranscript`) |
| Ai.ReplyTranscriptBreaks | src/backend/services/ai.ts:13-15 | for every history, multi-line contents such as the scenario banner included: an empty history gives the empty transcript; otherwise the transcript holds one line break between each two messages plus those inside the contents (`Ai.MessageBreaks`), and splits into one piece per message plus one per break inside a content |
| Ai.EvaluationTranscriptBreaks | src/backend/services/ai.ts:71-76 | the same line structure for the evaluation transcript |
| Ai.LineIsSingle | src/backend/services/ai.ts:14 | a labelled line of a break-free message holds no line break |
| Ai.TranscriptsAgreeWithoutSystem | src/backend/services/ai.ts:71-76 | without system messages both renderers give the same transcript |
| Ai.DecodeAnswer | src/backend/services/ai.ts:44-54 | a failed call or an answer without a brace span decodes to nothing; a successful call with a span decodes to exactly what the decoder gives for that span, and a decoded value implies such a call |
| Ai.GenerateClientResponse | src/backend/services/ai.ts:44-61 | any failure (call, missing span, decode) gives the fixed apology with emotion `confused` and no hints; otherwise the decoded reply |
| Ai.ReplyFallsBackWithoutSpan | src/backend/services/ai.ts:49-61 | a failed call or a span-less answer gives the apology, whose emotion is `confused` |
| Ai.ReplyDependsOnlyOnItsPrompt | src/backend/services/ai.ts:13-45 | two generators that answer the reply prompt alike give the same reply |
| Ai.GenerateInitialClientMessage | src/backend/services/ai.ts:176-183 | the trimmed answer on success, the fixed greeting on failure |
| Ai.OpeningIsTrimmed | src/backend/services/ai.ts:179 | the opening message, generated or fallback, never starts or ends with whitespace |
| Ai.WithDefaultSessionId | src/backend/services/ai.ts:143-146 | `sessionId` defaults to `''` and an answer's own `sessionId` overrides it; every other field is the answer's |
| Ai.EvaluateSession | src/backend/services/ai.ts:133-150 | fails with `Failed to evaluate session` exactly when nothing decodes, without a fallback; otherwise the decoded evaluation with the session-id default |
| Ai.CategoryDescription | src/backend/services/ai.ts:199-209 | a known key gives its non-empty table description; an unknown one gives the raw category string (`Ai.ScenarioBlurb` is the text the scenario prompt embeds) |
| Ai.GenerateScenario | src/backend/services/ai.ts:230-243 | fails with `Failed to generate scenario` exactly when nothing decodes; otherwise the decoded scenario |
| SessionsRoute.ClampDifficulty | src/app/api/sessions/route.ts:19 | the result lies in 1..5, equals an in-range input, and is the nearer bound otherwise |
| SessionsRoute.RandomIndex | src/app/api/sessions/route.ts:16 | `floor(rand * n)` for `0 <= rand < 1` is a valid index |
| SessionsRoute.SelectCategory | src/app/api/sessions/route.ts:15-16 | a present, non-empty category is kept; otherwise the choice is one of the five table keys |
| SessionsRoute.CreateSession | src/app/api/sessions/route.ts:6-76 | an unreadable body, a failed scenario or an unknown category answers 500 with the start-failure text; otherwise the session has the drawn ids, status in progress, the selected category with its Japanese name, the clamped difficulty (default 2), the generated fields, and exactly two messages: the system banner `【シナリオ開始】\n\n` + description, then the client opening |
| SessionsRoute.RandomCategoryAlwaysKnown | src/app/api/sessions/route.ts:9-16 | an empty request gets a table category and difficulty 2, and succeeds whenever the scenario is generated |
| SessionsRoute.ClampedConsensusSession | src/app/api/sessions/route.ts:19-58 | consensus building at difficulty 10 becomes a consensus-building session at difficulty 5, system message first and client message second |
| SessionsRoute.ListCategoriesResponse | src/app/api/sessions/route.ts:78-89 | the listing always succeeds with status 200 and carries the listing as the `categories` field of its data, each category's entry under its own key |
| SessionsRoute.ListingCoversCategories | src/app/api/sessions/route.ts:80-83 | the listing (`SessionsRoute.ListCategories`, one entry per table key in table order) has five entries, every category listed, ids distinct, each id looks up to its own category, and each entry carries that category's table fields |
| ChatRoute.AppendUserMessage | src/app/api/chat/route.ts:26-34 | the updated history is the old one, unchanged, followed by exactly one user message holding the text |
| ChatRoute.ClientMessageFor | src/app/api/chat/route.ts:40-48 | the client message has role client, the reply's text, and the reply's emotion as detected intent |
| ChatRoute.ChatPost | src/app/api/chat/route.ts:6-69 | an unreadable body answers 500; a missing scenario or a missing or empty message answers 400; missing history answers 500; otherwise it answers with the appended user message, the client message built from the reply to the updated history, and the reply's emotion and hints |
| ChatRoute.RejectionIgnoresGenerator | src/app/api/chat/route.ts:15-23 | an incomplete request (`ChatRoute.IsIncomplete`: no scenario or no or empty message) answers 400 whatever the generator says: no reply is generated |
| ChatRoute.ReplySeesUpdatedHistory | src/app/api/chat/route.ts:37 | the reply depends on the generator only through its answer to the prompt holding the updated history |
| ChatRoute.ProseAnswerGivesApology | src/app/api/chat/route.ts:37-56 | an answer without a brace span still succeeds, with the apology as client message and emotion `confused` |
| EvaluateRoute.StampSessionId | src/app/api/evaluate/route.ts:26 | the session id becomes the request's and no other field changes |
| EvaluateRoute.EvaluatePost | src/app/api/evaluate/route.ts:6-42 | an unreadable body answers 500; a missing scenario, missing messages or fewer than two messages answer 400; a failed evaluation answers 500; otherwise the evaluation stamped with the request's session id |
| EvaluateRoute.SessionIdComesFromRequest | src/app/api/evaluate/route.ts:25-30 | on success the session id is the request's whatever the answer held, and the overall score and the results are the decoded ones |
| EvaluateRoute.ProseAnswerFails | src/app/api/evaluate/route.ts:25-41 | an answer without a brace span answers 500 with the evaluation-failure text |
| EvaluateRoute.ShortHistoryRejected | src/app/api/evaluate/route.ts:14-22 | fewer than two messages (`EvaluateRoute.HasEnoughHistory` fails) answer 400 whatever the generator says |
| ChatView.UserMessageCount | src/components/ChatInterface.tsx:52 | at most the number of messages, and zero exactly when no message is the user's |
| ChatView.UserMessageCountAppend | src/components/ChatInterface.tsx:52 | the count of a concatenation is the sum of the counts |
| ChatView.FinishLabel | src/components/ChatInterface.tsx:136-138 | below three turns the label names the `3 - count` turns left, otherwise the finish text |
| ChatView.FinishLabelMatchesGate | src/components/ChatInterface.tsx:129-138 | the label shows the finish text exactly when the button (`ChatView.FinishEnabled`) is enabled, when not loading |
| ChatView.FinishGateImpliesEnoughHistory | src/components/ChatInterface.tsx:129 | an enabled finish button implies at least the two messages the evaluate endpoint demands |
| ChatView.SubmitGate | src/components/ChatInterface.tsx:38 | the submit gate (`ChatView.SubmitEnabled`) opens exactly when nothing is loading and the input holds a non-whitespace character |
| ChatView.ChatForm.constructor | src/components/ChatInterface.tsx:22 | the input starts empty |
| ChatView.ChatForm.HandleSubmit | src/components/ChatInterface.tsx:36-43 | blank input or loading sends nothing and keeps the input; otherwise the trimmed input is sent and the input cleared |
| ChatView.ChatForm.HandleKeyDown | src/components/ChatInterface.tsx:45-50 | Enter without Shift (`ChatView.SubmitsOnKey`) submits as above; any other key, or Shift+Enter, leaves everything as it was |
| SessionHook.SessionStore.constructor | src/hooks/useSession.ts:13-16 | no session, not loading, no error, no evaluation |
| SessionHook.SessionStore.StartSession | src/hooks/useSession.ts:19-43 | clears the error and the evaluation; a successful answer (`SessionHook.Payload`) replaces the session wholesale, a failure keeps the old session and records the thrown message or the fallback text (`SessionHook.FailureText`); loading ends false |
| SessionHook.SessionStore.SendMessage | src/hooks/useSession.ts:46-87 | without a session nothing changes; on success the messages become the old ones followed by the user and client messages received, the rest of the session is kept and the reply returned; on failure the session is kept and the error recorded; the evaluation is untouched and loading ends false |
| SessionHook.SessionStore.EvaluateCurrentSession | src/hooks/useSession.ts:90-128 | without a session nothing changes; on success the evaluation is stored and the session marked completed with its messages untouched; on failure the session and evaluation are kept and the error recorded; loading ends false |
| SessionHook.SessionStore.ResetSession | src/hooks/useSession.ts:131-135 | session, evaluation and error become empty |
| SessionHook.HookRequestsValidate | src/hooks/useSession.ts:56-60 | the chat request the hook posts (`SessionHook.SendRequest`) is rejected only for an empty message and carries the session's history; the evaluate request (`SessionHook.EvaluateRequest`) passes the history check exactly when the session has two or more messages and carries the session's id |
| SessionHook.StartRequestKeepsCategory | src/hooks/useSession.ts:28 | a requested category reaches the sessions endpoint (`SessionHook.StartRequest`) as its key, which the endpoint keeps and maps back to the same category, and the difficulty is passed as given |
| SessionHook.SendThroughChatAddsOneTurn | src/hooks/useSession.ts:69-79 | a send that the chat endpoint accepts grows the history by exactly two, keeps the prefix, adds a user message holding the text sent and then a client message, and adds one developer turn |
| SessionHook.CreatedSessionStartsFresh | src/app/api/sessions/route.ts:41-60 | a created session is in progress with two messages, none from the developer, so the finish button starts disabled |
| EvaluationReport.ScoreColor | src/components/EvaluationResult.tsx:14-18 | green exactly for 80 and above, yellow exactly for 60 to 79, red exactly below 60 |
| EvaluationReport.ScoreEmoji | src/components/EvaluationResult.tsx:20-24 | 🌟, 👍 and 💪 on the same three bands |
| EvaluationReport.BandsAgree | src/components/EvaluationResult.tsx:14-24 | colour and emoji always show the same band, and a higher score never shows a lower band |
| EvaluationReport.AppendBullets | src/components/EvaluationResult.tsx:37-39 | the loop appends one `  - item` line per item, in order |
| EvaluationReport.AppendSection | src/components/EvaluationResult.tsx:43-48 | a closing section (heading and bullets) is appended exactly when its list is present and non-empty |
| EvaluationReport.AppendResultBlock | src/components/EvaluationResult.tsx:33-40 | appends a result's score line, feedback line and, for non-empty examples, its examples |
| EvaluationReport.FormatEvaluationText | src/components/EvaluationResult.tsx:27-65 | the appending loops produce exactly the report (`EvaluationReport.ReportText`): header, overall score, one block per result in order, then the three optional sections |
| EvaluationReport.ReportOpensWithScore | src/components/EvaluationResult.tsx:28-29 | the report begins with the header line followed by `総合スコア: N/100` |
| EvaluationReport.ResultBlocksInOrder | src/components/EvaluationResult.tsx:32-41 | the blocks of a concatenation of results are their blocks one after the other, one block per result |
| EvaluationReport.EmptySectionsOmitted | src/components/EvaluationResult.tsx:43-62 | an empty list and an absent list give the same report, and with no lists the report ends after the result blocks |
| EvaluationReport.ExamplesShownIffPresent | src/components/EvaluationResult.tsx:35-40 | a result's examples part is non-empty exactly when its examples are present and non-empty |
| EvaluationReport.AppendItemRows | src/components/EvaluationResult.tsx:91-95 | the loop appends one quoted row per item of a present list and nothing for an absent one |
| EvaluationReport.BuildCsv | src/components/EvaluationResult.tsx:80-109 | the appending code produces exactly the CSV text (`EvaluationReport.EvaluationCsv`): BOM, header, overall row, one row per result, then the three sections |
| EvaluationReport.CsvOpensWithHeader | src/components/EvaluationResult.tsx:81-83 | the CSV starts with the BOM, then the header row, then the overall-score row |
| EvaluationReport.CsvRowCount | src/components/EvaluationResult.tsx:81-109 | with break-free fields the CSV has 2 + one per result + 3 × 2 section-header lines + one per item line breaks: section headers stay even for empty or absent lists |
| EvaluationReport.ResultRowCount | src/components/EvaluationResult.tsx:86-87 | a result row with break-free fields, examples joined by `；`, is one line |
| EvaluationReport.ListRowsCount | src/components/EvaluationResult.tsx:91-95 | a list contributes one line per item, none when absent |

## Left out

- The generator client, its network calls and its model name are not modelled; each call is the `Model` parameter, and a thrown call is `GenerationFailed`.
- The fixed wording of the four prompt templates is not modelled; only the values interpolated into them are (`Ai.Prompt`).
- `JSON.parse` and the `as` casts are the decoder parameter; no JSON grammar is modelled. The decoded emotion is kept as a raw string because the cast checks nothing.
- Ai.GenerateClientResponse: decoded fields are assumed to have their declared JSON kinds (a string message, an optional list of hints); a decoded object of another shape is not modelled.
- Ai.EvaluateSession: the decoded evaluation is assumed to hold an integer overall score and a `results` list of well-formed results; in the code an answer lacking `results` still reaches the client with status 200, where the text report, the CSV builder and the result list then throw. The model cannot represent that answer, so `EvaluationReport.FormatEvaluationText` and `EvaluationReport.BuildCsv` are total.
- Ai.GenerateScenario: the decoded scenario is assumed to hold every field as a string; in the code a scenario lacking `description` makes the session's opening banner read `undefined` after the heading, which the model does not represent.
- EvaluationReport.ScoreColor: scores and the overall score are integers; a fractional or non-numeric score coming from the decoder is not modelled, nor is JavaScript's number formatting of such values.
- Strings.IntToString: every integer is printed in plain decimal; JavaScript prints numbers of 1e21 and above in exponent form and loses precision above 2^53, which scores between 0 and 100 never reach.
- SessionsRoute.CreateSession: difficulty is an integer, as the code only clamps and never rounds; a fractional or non-numeric difficulty is not modelled.
- SessionsRoute.CreateSession: a category string that names an inherited object property (such as `constructor`) is treated as unknown; property lookup through the prototype chain is not modelled.
- `Math.random`, `uuidv4` and `new Date()` are parameters (`rand`, `Drawn`, `ChatDrawn`); timestamps are integers, and their conversion to and from JSON strings on the way to the client is not modelled.
- The evaluate endpoint's in-place `evaluation.sessionId = sessionId` assigns to a freshly decoded object that nothing else shares; it is modelled as a record update (`EvaluateRoute.StampSessionId`).
- A request body that omits `sessionId` on the evaluate endpoint is modelled with the id as a plain string; the `undefined` case is not modelled.
- React scheduling, `useCallback` closure staleness and `loading` as a guard between overlapping requests are not modelled; each hook operation is a sequential, atomic method, so `loading` is false between operations.
- The `abandoned` session status is declared and carried but never set.
- The clipboard copy, the success timer, the Blob download and the timestamped file name of the evaluation screen are browser I/O.
- The CSV writer does not escape double quotes inside quoted fields; the model reproduces the text as written and states the row count only for fields without line breaks.
- The textarea's change handler, scrolling and focus effects of the chat screen are presentation.
- The database schema, the layout, the message bubble and the scenario selector are rendering or unused code and are not part of this model.
