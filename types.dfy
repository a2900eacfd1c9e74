/** The shared data model: scenario categories and their table, messages, scenarios, sessions,
    evaluations, the generated client reply, and the response envelope every endpoint returns. */
module Types {
  import opened Wrappers

  /** The five training foci, in the order their table declares them. */
  datatype Category =
    | RequirementConfirmation
    | TechnicalTranslation
    | AmbiguityStructuring
    | ResponsibilityClarification
    | ConsensusBuilding
  {
    /** The category's key in the category table. */
    function Key(): string {
      match this
      case RequirementConfirmation => "requirement_confirmation"
      case TechnicalTranslation => "technical_translation"
      case AmbiguityStructuring => "ambiguity_structuring"
      case ResponsibilityClarification => "responsibility_clarification"
      case ConsensusBuilding => "consensus_building"
    }

    /** The category's entry in the category table. */
    function Info(): CategoryInfo {
      match this
      case RequirementConfirmation =>
        CategoryInfo("Requirement Confirmation", "要件確認",
          "クライアントの要望を正確に把握し、具体的な要件に落とし込む練習")
      case TechnicalTranslation =>
        CategoryInfo("Technical Translation", "技術と非技術の翻訳",
          "技術的な内容を非エンジニアに分かりやすく説明する、または非技術的な要望を技術要件に変換する練習")
      case AmbiguityStructuring =>
        CategoryInfo("Ambiguity Structuring", "曖昧さの構造化",
          "曖昧な要望から具体的な仕様を引き出し、構造化する練習")
      case ResponsibilityClarification =>
        CategoryInfo("Responsibility Clarification", "責任範囲の明文化",
          "プロジェクトにおける責任範囲を明確にし、文書化する練習")
      case ConsensusBuilding =>
        CategoryInfo("Consensus Building", "合意形成",
          "クライアントとの合意を形成し、文書で確認する練習")
    }
  }

  datatype CategoryInfo = CategoryInfo(name: string, nameJa: string, description: string)

  /** The keys of the category table in declaration order, as enumerating its keys yields them. */
  const AllCategories: seq<Category> :=
    [RequirementConfirmation, TechnicalTranslation, AmbiguityStructuring,
     ResponsibilityClarification, ConsensusBuilding]

  /** The position of a category in the table. */
  function CategoryIndex(c: Category): (k: nat)
    ensures k < |AllCategories| && AllCategories[k] == c
  {
    match c
    case RequirementConfirmation => 0
    case TechnicalTranslation => 1
    case AmbiguityStructuring => 2
    case ResponsibilityClarification => 3
    case ConsensusBuilding => 4
  }

  /** Looks a key up in the category table. */
  function ParseCategory(key: string): (r: Option<Category>)
    ensures r.Some? ==> r.value.Key() == key
    ensures r.None? ==> forall c: Category :: c.Key() != key
  {
    if key == "requirement_confirmation" then Some(RequirementConfirmation)
    else if key == "technical_translation" then Some(TechnicalTranslation)
    else if key == "ambiguity_structuring" then Some(AmbiguityStructuring)
    else if key == "responsibility_clarification" then Some(ResponsibilityClarification)
    else if key == "consensus_building" then Some(ConsensusBuilding)
    else None
  }

  /** The table has exactly one entry per category, under pairwise distinct keys, and every
      entry has a name, a Japanese name and a description. */
  lemma CategoryTableComplete()
    ensures |AllCategories| == 5
    ensures forall c: Category :: c in AllCategories
    ensures forall i, j :: 0 <= i < j < 5 ==> AllCategories[i].Key() != AllCategories[j].Key()
    ensures forall c: Category :: c.Info().name != "" && c.Info().nameJa != "" && c.Info().description != ""
  {
    forall c: Category ensures c in AllCategories {
      assert AllCategories[CategoryIndex(c)] == c;
    }
    forall i, j | 0 <= i < j < 5 ensures AllCategories[i].Key() != AllCategories[j].Key() {
      KeysDiffer(AllCategories[i], AllCategories[j]);
    }
    forall c: Category ensures c.Info().name != "" && c.Info().nameJa != "" && c.Info().description != "" {
      InfoFilled(c);
    }
  }

  /** Each category's key has a character at a position where no other category's key has it. */
  lemma KeysDiffer(c: Category, d: Category)
    requires c != d
    ensures c.Key() != d.Key()
  {
    match c
    case RequirementConfirmation => assert c.Key()[2] == 'q';
    case TechnicalTranslation => assert c.Key()[0] == 't';
    case AmbiguityStructuring => assert c.Key()[0] == 'a';
    case ResponsibilityClarification => assert c.Key()[2] == 's';
    case ConsensusBuilding => assert c.Key()[0] == 'c';
  }

  /** Every entry of the table has a name, a Japanese name and a description. */
  lemma InfoFilled(c: Category)
    ensures c.Info().name != "" && c.Info().nameJa != "" && c.Info().description != ""
  {
    match c
    case RequirementConfirmation =>
    case TechnicalTranslation =>
    case AmbiguityStructuring =>
    case ResponsibilityClarification =>
    case ConsensusBuilding =>
  }

  /** Every key reads back as its own category. */
  lemma ParseCategoryKey(c: Category)
    ensures ParseCategory(c.Key()) == Some(c)
  {
  }

  datatype Role = User | Client | System

  datatype Metadata = Metadata(intentDetected: Option<string>)

  /** One line of the conversation; `timestamp` is the creation time in milliseconds. */
  datatype Message = Message(id: string, role: Role, content: string, timestamp: int, metadata: Option<Metadata>)

  datatype SessionStatus = InProgress | Completed | Abandoned

  /** A generated scenario, together with the Japanese name of its category that sessions carry. */
  datatype ScenarioInfo = ScenarioInfo(
    id: string,
    title: string,
    description: string,
    category: Category,
    categoryName: string,
    difficulty: int,
    clientPersona: string,
    projectContext: string)

  datatype SessionState = SessionState(
    sessionId: string,
    scenario: ScenarioInfo,
    messages: seq<Message>,
    status: SessionStatus,
    startedAt: int)

  /** The score for one criterion. `examples` may be absent in a decoded evaluation. */
  datatype EvaluationResult = EvaluationResult(
    criteriaType: string,
    criteriaName: string,
    score: int,
    feedback: string,
    examples: Option<seq<string>>)

  /** The assessment of a transcript. The three lists may be absent in a decoded evaluation. */
  datatype SessionEvaluation = SessionEvaluation(
    sessionId: string,
    overallScore: int,
    results: seq<EvaluationResult>,
    strengths: Option<seq<string>>,
    improvements: Option<seq<string>>,
    recommendations: Option<seq<string>>)

  /** The five emotions a client reply is asked to carry. */
  datatype Emotion = Neutral | Satisfied | Confused | Frustrated | Pleased {
    function Name(): string {
      match this
      case Neutral => "neutral"
      case Satisfied => "satisfied"
      case Confused => "confused"
      case Frustrated => "frustrated"
      case Pleased => "pleased"
    }
  }

  /** A client reply as decoded from the generator. Decoding does not check the shape, so
      `emotion` is whatever string the generator wrote. */
  datatype ClientResponse = ClientResponse(message: string, emotion: string, hints: Option<seq<string>>)

  /** The body every endpoint answers with: `success`, then `data` or `error`, and the HTTP status. */
  datatype ApiResponse<+T> = Ok(data: T) | Fail(status: int, error: string) {
    function Status(): int {
      if Ok? then 200 else status
    }
  }
}
