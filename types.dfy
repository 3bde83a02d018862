/**
 * The data of a gamified canvas and of a stored script record.
 *
 * A canvas always carries `gameRules`; the three mechanic variants, the title
 * suggestion and the quiz are each optional on their own, so a canvas may hold
 * several variants at once (or none).
 */
module CanvasTypes {
  import opened Wrappers

  // ---------------------------------------------------------------------------
  // Form vocabularies

  datatype EducationLevel = Fundamental1 | Fundamental2 | HighSchool | HigherEducation

  datatype Bimester = FirstBimester | SecondBimester | ThirdBimester | FourthBimester

  /** The stored and prompted spelling of an education level. */
  function LevelLabel(l: EducationLevel): string
  {
    match l
    case Fundamental1 => "Ensino Fundamental 1"
    case Fundamental2 => "Ensino Fundamental 2"
    case HighSchool => "Ensino Médio"
    case HigherEducation => "Ensino Superior"
  }

  /** The stored and prompted spelling of a grading period. */
  function BimesterLabel(b: Bimester): string
  {
    match b
    case FirstBimester => "1º Bimestre"
    case SecondBimester => "2º Bimestre"
    case ThirdBimester => "3º Bimestre"
    case FourthBimester => "4º Bimestre"
  }

  // ---------------------------------------------------------------------------
  // Quiz

  datatype QuizQuestion = QuizQuestion(
    question: string,
    options: seq<string>,
    correctAnswer: int,          // documented as an index 0..3 into options; never checked
    explanation: Option<string>)

  /** The option a question marks as right, when its index is inside `options`. */
  function CorrectOption(q: QuizQuestion): (o: Option<string>)
    ensures o.Some? <==> 0 <= q.correctAnswer < |q.options|
    ensures o.Some? ==> o.value in q.options && o.value == q.options[q.correctAnswer]
  {
    if 0 <= q.correctAnswer < |q.options| then Some(q.options[q.correctAnswer]) else None
  }

  // ---------------------------------------------------------------------------
  // Target shooting

  datatype TargetKind = CorrectTarget | WrongTarget | InfoTarget

  /** The enumeration the response schema allows for a target's `type`. */
  const TargetKindNames: seq<string> := ["correct", "wrong", "info"]

  function ParseTargetKind(s: string): (k: Option<TargetKind>)
    ensures k.Some? <==> s in TargetKindNames
  {
    if s == "correct" then Some(CorrectTarget)
    else if s == "wrong" then Some(WrongTarget)
    else if s == "info" then Some(InfoTarget)
    else None
  }

  function TargetKindName(k: TargetKind): (s: string)
    ensures s in TargetKindNames
    ensures ParseTargetKind(s) == Some(k)
  {
    match k
    case CorrectTarget => "correct"
    case WrongTarget => "wrong"
    case InfoTarget => "info"
  }

  datatype TargetItem = TargetItem(
    id: string,
    title: string,
    description: string,
    points: int,
    kind: TargetKind)

  datatype TargetShootingData = TargetShootingData(
    timeLimit: string,
    difficulty: string,
    levelsCount: string,
    targets: seq<TargetItem>)

  // ---------------------------------------------------------------------------
  // Board game

  datatype HouseKind = StartHouse | InfoHouse | QuizHouse | SetbackHouse | BonusHouse | FinishHouse

  /** The enumeration the response schema allows for a house's `type`. */
  const HouseKindNames: seq<string> := ["start", "info", "quiz", "setback", "bonus", "finish"]

  function ParseHouseKind(s: string): (k: Option<HouseKind>)
    ensures k.Some? <==> s in HouseKindNames
  {
    if s == "start" then Some(StartHouse)
    else if s == "info" then Some(InfoHouse)
    else if s == "quiz" then Some(QuizHouse)
    else if s == "setback" then Some(SetbackHouse)
    else if s == "bonus" then Some(BonusHouse)
    else if s == "finish" then Some(FinishHouse)
    else None
  }

  function HouseKindName(k: HouseKind): (s: string)
    ensures s in HouseKindNames
    ensures ParseHouseKind(s) == Some(k)
  {
    match k
    case StartHouse => "start"
    case InfoHouse => "info"
    case QuizHouse => "quiz"
    case SetbackHouse => "setback"
    case BonusHouse => "bonus"
    case FinishHouse => "finish"
  }

  datatype BoardHouse = BoardHouse(
    number: int,
    kind: HouseKind,
    title: string,
    description: string,
    action: Option<string>)

  datatype BoardGameData = BoardGameData(
    totalHouses: int,
    playersConfig: string,
    diceConfig: string,
    houses: seq<BoardHouse>)

  // ---------------------------------------------------------------------------
  // Drag and drop

  datatype DragDropPair = DragDropPair(item: string, zone: string)

  datatype DragDropLevel = DragDropLevel(title: string, description: string, pairs: seq<DragDropPair>)

  datatype DragDropData = DragDropData(levels: seq<DragDropLevel>)

  // ---------------------------------------------------------------------------
  // The five text sections

  datatype Curriculum = Curriculum(
    area: string, yearBimester: string, subject: string, theme: string,
    bnccCodes: string, bnccDescription: string, bibliography: string)

  datatype Style = Style(genre: string, targetAudience: string, narrativeIntro: string)

  datatype GameRules = GameRules(
    totalElements: string, challengeElements: string, penaltyElements: string,
    rewardElements: string, gameplayLoop: string)

  datatype Narrative = Narrative(
    synopsis: string, characters: string, flow: string, enemies: string, mechanics: string)

  datatype Content = Content(intro: string, victoryCondition: string, defeatCondition: string)

  /** The nested text sections of a canvas, by the key they have in the document. */
  datatype SectionName = CurriculumSection | StyleSection | GameRulesSection | NarrativeSection | ContentSection

  /** The document key of a section. */
  function SectionKey(n: SectionName): string
  {
    match n
    case CurriculumSection => "curriculum"
    case StyleSection => "style"
    case GameRulesSection => "gameRules"
    case NarrativeSection => "narrative"
    case ContentSection => "content"
  }

  function SectionNamed(key: string): (n: Option<SectionName>)
    ensures n.Some? ==> SectionKey(n.value) == key
  {
    if key == "curriculum" then Some(CurriculumSection)
    else if key == "style" then Some(StyleSection)
    else if key == "gameRules" then Some(GameRulesSection)
    else if key == "narrative" then Some(NarrativeSection)
    else if key == "content" then Some(ContentSection)
    else None
  }

  /** The string fields a section declares, in declaration order. */
  function SectionKeys(n: SectionName): seq<string>
  {
    match n
    case CurriculumSection =>
      ["area", "year_bimester", "subject", "theme", "bncc_codes", "bncc_description", "bibliography"]
    case StyleSection => ["genre", "target_audience", "narrative_intro"]
    case GameRulesSection =>
      ["total_elements", "challenge_elements", "penalty_elements", "reward_elements", "gameplay_loop"]
    case NarrativeSection => ["synopsis", "characters", "flow", "enemies", "mechanics"]
    case ContentSection => ["intro", "victory_condition", "defeat_condition"]
  }

  /** No section declares a key twice. */
  ghost predicate DistinctKeys(keys: seq<string>)
  {
    forall i, j :: 0 <= i < j < |keys| ==> keys[i] != keys[j]
  }

  // ---------------------------------------------------------------------------
  // The canvas and the stored record

  datatype GamifiedCanvas = GamifiedCanvas(
    curriculum: Curriculum,
    style: Style,
    gameRules: GameRules,
    targetShooting: Option<TargetShootingData>,
    boardGame: Option<BoardGameData>,
    dragDrop: Option<DragDropData>,
    narrative: Narrative,
    content: Content,
    titleSuggestion: Option<string>,
    quiz: Option<seq<QuizQuestion>>)

  /** The values of one text section, in the order of `SectionKeys`. */
  function SectionValues(c: GamifiedCanvas, n: SectionName): (vs: seq<string>)
    ensures |vs| == |SectionKeys(n)|
  {
    match n
    case CurriculumSection =>
      var x := c.curriculum;
      [x.area, x.yearBimester, x.subject, x.theme, x.bnccCodes, x.bnccDescription, x.bibliography]
    case StyleSection =>
      var x := c.style;
      [x.genre, x.targetAudience, x.narrativeIntro]
    case GameRulesSection =>
      var x := c.gameRules;
      [x.totalElements, x.challengeElements, x.penaltyElements, x.rewardElements, x.gameplayLoop]
    case NarrativeSection =>
      var x := c.narrative;
      [x.synopsis, x.characters, x.flow, x.enemies, x.mechanics]
    case ContentSection =>
      var x := c.content;
      [x.intro, x.victoryCondition, x.defeatCondition]
  }

  /** The canvas whose section `n` holds `vs`; every other part is that of `c`. */
  function WithSectionValues(c: GamifiedCanvas, n: SectionName, vs: seq<string>): (r: GamifiedCanvas)
    requires |vs| == |SectionKeys(n)|
    ensures SectionValues(r, n) == vs
    ensures forall m :: m != n ==> SectionValues(r, m) == SectionValues(c, m)
    ensures r.titleSuggestion == c.titleSuggestion && r.quiz == c.quiz
    ensures r.targetShooting == c.targetShooting && r.boardGame == c.boardGame && r.dragDrop == c.dragDrop
  {
    match n
    case CurriculumSection =>
      c.(curriculum := Curriculum(vs[0], vs[1], vs[2], vs[3], vs[4], vs[5], vs[6]))
    case StyleSection =>
      c.(style := Style(vs[0], vs[1], vs[2]))
    case GameRulesSection =>
      c.(gameRules := GameRules(vs[0], vs[1], vs[2], vs[3], vs[4]))
    case NarrativeSection =>
      c.(narrative := Narrative(vs[0], vs[1], vs[2], vs[3], vs[4]))
    case ContentSection =>
      c.(content := Content(vs[0], vs[1], vs[2]))
  }

  /** A canvas is determined by its five sections' values and its other parts. */
  lemma {:induction false} CanvasBySections(c: GamifiedCanvas, d: GamifiedCanvas)
    requires forall n :: SectionValues(c, n) == SectionValues(d, n)
    requires c.titleSuggestion == d.titleSuggestion && c.quiz == d.quiz
    requires c.targetShooting == d.targetShooting && c.boardGame == d.boardGame && c.dragDrop == d.dragDrop
    ensures c == d
  {
    assert SectionValues(c, CurriculumSection) == SectionValues(d, CurriculumSection);
    assert SectionValues(c, StyleSection) == SectionValues(d, StyleSection);
    assert SectionValues(c, GameRulesSection) == SectionValues(d, GameRulesSection);
    assert SectionValues(c, NarrativeSection) == SectionValues(d, NarrativeSection);
    assert SectionValues(c, ContentSection) == SectionValues(d, ContentSection);
  }

  datatype ScriptStatus = Active | Deleted

  /** A stored script. Timestamps are milliseconds since the epoch; absent until the store sets them. */
  datatype ScriptItem = ScriptItem(
    id: string,
    userId: string,
    title: string,
    subject: string,
    level: EducationLevel,
    year: string,
    bimester: Bimester,
    gameType: string,
    includeQuiz: bool,
    questionsCount: int,
    ideaText: string,
    generatedContent: Option<GamifiedCanvas>,
    lastModified: Option<int>,
    createdAt: Option<int>,
    status: ScriptStatus)
}
