/** The `/api/sessions` endpoint: `POST` creates a session (category choice, difficulty clamp,
    scenario and opening generation, session assembly); `GET` lists the categories. Identifiers,
    clock readings and the random draw are parameters. */
module SessionsRoute {
  import opened Wrappers
  import opened Types
  import opened Ai

  /** The decoded request body: both fields may be absent. */
  datatype CreateSessionRequest = CreateSessionRequest(category: Option<string>, difficulty: Option<int>)

  /** The values the handler draws from the outside world: four drawn identifiers and three
      readings of the clock, in milliseconds. */
  datatype Drawn = Drawn(
    sessionId: string,
    scenarioId: string,
    systemMessageId: string,
    clientMessageId: string,
    systemAt: int,
    clientAt: int,
    startedAt: int)

  const DefaultDifficulty: int := 2

  const StartFailedMessage: string := "セッションの開始に失敗しました"

  const ScenarioBanner: string := "【シナリオ開始】\n\n"

  /** `Math.min(Math.max(d, 1), 5)`. */
  function ClampDifficulty(d: int): (r: int)
    ensures 1 <= r <= 5
    ensures 1 <= d <= 5 ==> r == d
    ensures d < 1 ==> r == 1
    ensures d > 5 ==> r == 5
  {
    var lower := if d > 1 then d else 1;
    if lower < 5 then lower else 5
  }

  /** `Math.floor(rand * n)` for a draw `rand` of `Math.random()`. */
  function RandomIndex(rand: real, n: nat): (k: nat)
    requires 0.0 <= rand < 1.0
    requires n > 0
    ensures k < n
  {
    assert rand * n as real < n as real by {
      assert (1.0 - rand) * n as real > 0.0;
    }
    (rand * n as real).Floor
  }

  /** The category the session will use: the requested one when it is given and non-empty (the
      empty string counts as absent), otherwise a key of the category table picked by the draw. */
  function SelectCategory(requested: Option<string>, rand: real): (key: string)
    requires 0.0 <= rand < 1.0
    ensures requested.Some? && requested.value != "" ==> key == requested.value
    ensures requested.None? || requested.value == "" ==>
              exists i :: 0 <= i < |AllCategories| && key == AllCategories[i].Key()
  {
    if requested.Some? && requested.value != "" then requested.value
    else
      var i := RandomIndex(rand, |AllCategories|);
      AllCategories[i].Key()
  }

  /** The scenario a session carries, assembled from the generated fields. */
  function AssembleScenario(id: string, g: GeneratedScenario, c: Category, difficulty: int): ScenarioInfo {
    ScenarioInfo(id, g.title, g.description, c, c.Info().nameJa, difficulty, g.clientPersona, g.projectContext)
  }

  /** `POST /api/sessions`. A body that cannot be read, a failed scenario generation, and a
      requested category that is not a key of the category table (looking up its Japanese name
      throws) all answer 500. Otherwise the session holds the scenario, a system message that
      announces it and the client's opening message, and is in progress. */
  function CreateSession(body: Option<CreateSessionRequest>, rand: real, drawn: Drawn, model: Model,
                         decode: string -> Option<GeneratedScenario>): (r: ApiResponse<SessionState>)
    requires 0.0 <= rand < 1.0
    ensures r.Fail? ==> r.Status() == 500 && r.error == StartFailedMessage
    ensures body.None? ==> r.Fail?
    ensures body.Some? ==>
      var key := SelectCategory(body.value.category, rand);
      var difficulty := ClampDifficulty(body.value.difficulty.GetOr(DefaultDifficulty));
      var generated := GenerateScenario(key, difficulty, model, decode);
      && (r.Ok? <==> generated.Success? && ParseCategory(key).Some?)
      && (r.Ok? ==>
            var s := r.data;
            var g := generated.value;
            && s.sessionId == drawn.sessionId
            && s.status == InProgress
            && s.startedAt == drawn.startedAt
            && s.scenario.category.Key() == key
            && s.scenario.categoryName == s.scenario.category.Info().nameJa
            && s.scenario.difficulty == difficulty
            && s.scenario.id == drawn.scenarioId
            && s.scenario.title == g.title && s.scenario.description == g.description
            && s.scenario.clientPersona == g.clientPersona && s.scenario.projectContext == g.projectContext
            && |s.messages| == 2
            && s.messages[0] == Message(drawn.systemMessageId, System, ScenarioBanner + g.description, drawn.systemAt, None)
            && s.messages[1] == Message(drawn.clientMessageId, Client,
                                        GenerateInitialClientMessage(s.scenario, model), drawn.clientAt, None))
  {
    match body
    case None => Fail(500, StartFailedMessage)
    case Some(req) =>
      var key := SelectCategory(req.category, rand);
      var difficulty := ClampDifficulty(req.difficulty.GetOr(DefaultDifficulty));
      match GenerateScenario(key, difficulty, model, decode)
      case Failure(_) => Fail(500, StartFailedMessage)
      case Success(g) =>
        match ParseCategory(key)
        case None => Fail(500, StartFailedMessage)
        case Some(c) =>
          var scenario := AssembleScenario(drawn.scenarioId, g, c, difficulty);
          var opening := GenerateInitialClientMessage(scenario, model);
          Ok(SessionState(
            drawn.sessionId,
            scenario,
            [Message(drawn.systemMessageId, System, ScenarioBanner + g.description, drawn.systemAt, None),
             Message(drawn.clientMessageId, Client, opening, drawn.clientAt, None)],
            InProgress,
            drawn.startedAt))
  }

  /** A request without a category gets one of the five categories, and one without a difficulty
      gets difficulty 2; whenever the scenario is generated the session is created. */
  lemma RandomCategoryAlwaysKnown(rand: real, drawn: Drawn, model: Model,
                                  decode: string -> Option<GeneratedScenario>)
    requires 0.0 <= rand < 1.0
    requires GenerateScenario(SelectCategory(None, rand), DefaultDifficulty, model, decode).Success?
    ensures var r := CreateSession(Some(CreateSessionRequest(None, None)), rand, drawn, model, decode);
      r.Ok? && r.data.scenario.category in AllCategories && r.data.scenario.difficulty == 2
  {
    var key := SelectCategory(None, rand);
    var i :| 0 <= i < |AllCategories| && key == AllCategories[i].Key();
    ParseCategoryKey(AllCategories[i]);
    CategoryTableComplete();
  }

  /** A requested category reaches the scenario unchanged and an out-of-range difficulty is
      clamped: consensus building at difficulty 10 gives a consensus-building scenario at
      difficulty 5, opened by a system message and then a client message. */
  lemma ClampedConsensusSession(rand: real, drawn: Drawn, model: Model,
                                decode: string -> Option<GeneratedScenario>)
    requires 0.0 <= rand < 1.0
    requires GenerateScenario("consensus_building", 5, model, decode).Success?
    ensures var r := CreateSession(Some(CreateSessionRequest(Some("consensus_building"), Some(10))), rand, drawn, model, decode);
      && r.Ok?
      && r.data.scenario.difficulty == 5
      && r.data.scenario.category == ConsensusBuilding
      && |r.data.messages| == 2 && r.data.messages[0].role == System && r.data.messages[1].role == Client
  {
    ParseCategoryKey(ConsensusBuilding);
  }

  /** An entry of the category listing: the key next to the table's fields. */
  datatype CategoryEntry = CategoryEntry(id: string, name: string, nameJa: string, description: string)

  /** The listing `GET /api/sessions` returns: one entry per table key, in table order. */
  function ListCategories(): (entries: seq<CategoryEntry>)
    ensures |entries| == |AllCategories|
    ensures forall i :: 0 <= i < |entries| ==>
      var c := AllCategories[i];
      entries[i] == CategoryEntry(c.Key(), c.Info().name, c.Info().nameJa, c.Info().description)
  {
    seq(|AllCategories|, i requires 0 <= i < |AllCategories| =>
      var c := AllCategories[i];
      CategoryEntry(c.Key(), c.Info().name, c.Info().nameJa, c.Info().description))
  }

  /** The `data` object of the listing response, holding the listing under `categories`. */
  datatype CategoryListing = CategoryListing(categories: seq<CategoryEntry>)

  /** `GET /api/sessions`: always succeeds, with the listing under `categories`, where every
      category's entry carries its own key. */
  function ListCategoriesResponse(): (r: ApiResponse<CategoryListing>)
    ensures r.Ok? && r.Status() == 200 && r.data.categories == ListCategories()
    ensures forall c: Category :: r.data.categories[CategoryIndex(c)].id == c.Key()
  {
    Ok(CategoryListing(ListCategories()))
  }

  /** The listing names every category exactly once with its table fields, and each entry's id reads
      back as its category. */
  lemma ListingCoversCategories()
    ensures |ListCategories()| == 5
    ensures forall c: Category :: ListCategories()[CategoryIndex(c)].id == c.Key()
    ensures forall c: Category ::
      ListCategories()[CategoryIndex(c)] == CategoryEntry(c.Key(), c.Info().name, c.Info().nameJa, c.Info().description)
    ensures forall i, j :: 0 <= i < j < 5 ==> ListCategories()[i].id != ListCategories()[j].id
    ensures forall i :: 0 <= i < 5 ==> ParseCategory(ListCategories()[i].id) == Some(AllCategories[i])
  {
    CategoryTableComplete();
    var entries := ListCategories();
    forall i | 0 <= i < 5 ensures ParseCategory(entries[i].id) == Some(AllCategories[i]) {
      ParseCategoryKey(AllCategories[i]);
    }
  }
}
