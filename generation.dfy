/**
 * The request planner of `generateCanvasContent`: from the form inputs it
 * classifies the game type by keyword, fixes the number of levels, writes the
 * prompt (one mechanic paragraph, chosen by a fixed precedence) and builds the
 * response schema (whose variant keys are added independently of each other).
 * The call to the text-generation service is not part of this model; only the
 * "empty answer is an error" check on its reply is.
 */
module Generation {
  import opened Wrappers
  import opened Text
  import opened CanvasTypes

  /** What the editor passes in. Optional parameters are `Option`s. */
  datatype GenerateParams = GenerateParams(
    level: string,
    subject: string,
    year: string,
    bimester: string,
    gameType: string,
    context: Option<string>,
    includeQuiz: Option<bool>,
    quizCount: Option<int>,
    amountLevels: Option<int>)

  // ---------------------------------------------------------------------------
  // Classification and counts

  /** Which mechanic keywords the game-type label contains; several may hold. */
  datatype GameKinds = GameKinds(targetShooting: bool, boardGame: bool, dragDrop: bool)

  /**
   * The keyword tests on the lower-cased label: a kind holds exactly when one
   * of its keywords occurs somewhere in it.
   */
  function Classify(gameType: string): (k: GameKinds)
    ensures k.targetShooting <==> Occurs(ToLower(gameType), "tiro ao alvo")
    ensures k.boardGame <==> Occurs(ToLower(gameType), "tabuleiro") || Occurs(ToLower(gameType), "trilha")
    ensures k.dragDrop <==> Occurs(ToLower(gameType), "arrastar") || Occurs(ToLower(gameType), "drag")
  {
    var lower := ToLower(gameType);
    GameKinds(
      Contains(lower, "tiro ao alvo"),
      Contains(lower, "tabuleiro") || Contains(lower, "trilha"),
      Contains(lower, "arrastar") || Contains(lower, "drag"))
  }

  /** Classification looks only at the lower-cased label. */
  lemma ClassifyIgnoresCase(gameType: string)
    ensures Classify(ToLower(gameType)) == Classify(gameType)
  {
    ToLowerIdempotent(gameType);
  }

  /**
   * A label may name two mechanics at once: "Trilha Drag", in any mix of
   * cases, is both a board and a drag-drop game.
   */
  lemma MixedLabelMatchesTwoKinds(gameType: string)
    requires ToLower(gameType) == "trilha drag"
    ensures Classify(gameType) == GameKinds(false, true, true)
  {
    MixedLabelKeywords();
    NoTabuleiro();
    NoArrastar();
  }

  lemma MixedLabelKeywords()
    ensures Contains("trilha drag", "trilha") && Contains("trilha drag", "drag")
    ensures !Contains("trilha drag", "tiro ao alvo")
  {
    assert OccursAt("trilha drag", "trilha", 0);
    assert OccursAt("trilha drag", "drag", 7);
  }

  lemma NoTabuleiro()
    ensures !Contains("trilha drag", "tabuleiro")
  {
    forall i ensures !OccursAt("trilha drag", "tabuleiro", i) {
      if 0 <= i <= 2 {
        MismatchAt("trilha drag", "tabuleiro", i, if i == 0 then 1 else 0);
      }
    }
  }

  lemma NoArrastar()
    ensures !Contains("trilha drag", "arrastar")
  {
    forall i ensures !OccursAt("trilha drag", "arrastar", i) {
      if 0 <= i <= 3 {
        MismatchAt("trilha drag", "arrastar", i, 0);
      }
    }
  }

  /** The number of levels asked for: the requested count, or 5 when it is absent or zero. */
  function LevelAmount(amountLevels: Option<int>): (n: int)
    ensures n != 0
    ensures amountLevels.Some? && amountLevels.value != 0 ==> n == amountLevels.value
    ensures amountLevels.None? || amountLevels.value == 0 ==> n == 5
  {
    NumberOr(amountLevels, 5)
  }

  /** The number of board houses the prompt demands: `Math.max(10, levelAmount)`. */
  function BoardHouseCount(levelAmount: int): (n: int)
    ensures n >= 10 && n >= levelAmount
    ensures n == 10 || n == levelAmount
  {
    if 10 >= levelAmount then 10 else levelAmount
  }

  /** The number the schema's `totalHouses` description demands; it always agrees with the prompt. */
  function SchemaHouseCount(levelAmount: int): (n: int)
    ensures n == BoardHouseCount(levelAmount)
  {
    if levelAmount >= 10 then levelAmount else 10
  }

  // ---------------------------------------------------------------------------
  // The prompt, as a sequence of sections

  const DefaultContext: string := "Crie um tema criativo e engajador."

  datatype PromptSection =
    | Inputs(level: string, year: string, subject: string, bimester: string, gameType: string, context: string)
    | TargetShootingSection(targets: int)
    | BoardGameSection(houses: int)
    | DragDropSection(phases: int)
    | GenericRulesSection(rounds: int)
    | QuizSection(questions: int)
  {
    /** The paragraph describing the game's mechanic. */
    predicate IsMechanic()
    {
      !Inputs? && !QuizSection?
    }
  }

  /** The opening paragraph: role, task and the form inputs, with the default theme instruction for an empty context. */
  function InputsSection(p: GenerateParams): (s: PromptSection)
    ensures s.Inputs? && s.gameType == p.gameType
    ensures s.context == (if p.context.Some? && p.context.value != "" then p.context.value else DefaultContext)
  {
    Inputs(p.level, p.year, p.subject, p.bimester, p.gameType, TextOr(p.context, DefaultContext))
  }

  /** The one mechanic paragraph: target shooting before board before drag-drop before the generic rules. */
  function MechanicSection(k: GameKinds, levelAmount: int): (s: PromptSection)
    ensures s.IsMechanic()
    ensures s.TargetShootingSection? <==> k.targetShooting
    ensures s.BoardGameSection? <==> !k.targetShooting && k.boardGame
    ensures s.DragDropSection? <==> !k.targetShooting && !k.boardGame && k.dragDrop
    ensures s.GenericRulesSection? <==> !k.targetShooting && !k.boardGame && !k.dragDrop
    ensures s.BoardGameSection? ==> s.houses == BoardHouseCount(levelAmount)
    ensures s.TargetShootingSection? ==> s.targets == levelAmount
    ensures s.DragDropSection? ==> s.phases == levelAmount
    ensures s.GenericRulesSection? ==> s.rounds == levelAmount
  {
    if k.targetShooting then TargetShootingSection(levelAmount)
    else if k.boardGame then BoardGameSection(BoardHouseCount(levelAmount))
    else if k.dragDrop then DragDropSection(levelAmount)
    else GenericRulesSection(levelAmount)
  }

  /** The whole prompt: inputs, one mechanic paragraph, and the quiz paragraph when a quiz is wanted. */
  function PromptFor(p: GenerateParams): seq<PromptSection>
  {
    [InputsSection(p), MechanicSection(Classify(p.gameType), LevelAmount(p.amountLevels))]
      + (if Truthy(p.includeQuiz) then [QuizSection(NumberOr(p.quizCount, 5))] else [])
  }

  /** How many mechanic paragraphs a prompt holds. */
  function MechanicCount(prompt: seq<PromptSection>): nat
  {
    if prompt == [] then 0
    else (if prompt[0].IsMechanic() then 1 else 0) + MechanicCount(prompt[1..])
  }

  lemma {:induction false} MechanicCountAppend(a: seq<PromptSection>, b: seq<PromptSection>)
    ensures MechanicCount(a + b) == MechanicCount(a) + MechanicCount(b)
  {
    if a != [] {
      assert (a + b)[1..] == a[1..] + b;
      MechanicCountAppend(a[1..], b);
    } else {
      assert a + b == b;
    }
  }

  /**
   * The prompt starts with the inputs, holds exactly one mechanic paragraph,
   * and ends with a quiz paragraph for `quizCount || 5` questions exactly when
   * a quiz is requested.
   */
  lemma PromptShape(p: GenerateParams)
    ensures var prompt := PromptFor(p);
      && prompt[0].Inputs?
      && MechanicCount(prompt) == 1
      && (Truthy(p.includeQuiz) <==> |prompt| == 3)
      && (Truthy(p.includeQuiz) ==> prompt[2] == QuizSection(if p.quizCount.Some? && p.quizCount.value != 0 then p.quizCount.value else 5))
      && (!Truthy(p.includeQuiz) ==> |prompt| == 2)
  {
    var head := [InputsSection(p), MechanicSection(Classify(p.gameType), LevelAmount(p.amountLevels))];
    var tail: seq<PromptSection> := if Truthy(p.includeQuiz) then [QuizSection(NumberOr(p.quizCount, 5))] else [];
    MechanicCountAppend(head, tail);
    assert MechanicCount(head) == 1 by {
      assert head[1..][1..] == [];
    }
    if tail != [] {
      assert tail[1..] == [];
    }
  }

  // ---------------------------------------------------------------------------
  // The response schema

  datatype Description = NoDescription | Note(text: string) | MustBe(count: int)

  /** The shape descriptor given to the generation service. */
  datatype Schema =
    | SString(description: Description, enumValues: seq<string>)
    | SNumber(description: Description)
    | SInteger
    | SObject(description: Description, properties: map<string, Schema>, required: seq<string>)
    | SArray(items: Schema)

  /** Every `required` list, at every depth, names only declared properties. */
  ghost predicate RequiredDeclared(s: Schema)
  {
    match s
    case SObject(_, props, req) =>
      (forall i :: 0 <= i < |req| ==> req[i] in props) &&
      (forall key :: key in props ==> RequiredDeclared(props[key]))
    case SArray(items) => RequiredDeclared(items)
    case _ => true
  }

  function Str(): Schema { SString(NoDescription, []) }

  /** An object all of whose listed keys are required plain strings. */
  function TextObject(description: Description, keys: seq<string>): (s: Schema)
    ensures RequiredDeclared(s)
  {
    SObject(description, map key | key in keys :: Str(), keys)
  }

  /** The top-level keys of the response schema. */
  datatype TopKey =
    | CurriculumKey | StyleKey | GameRulesKey | NarrativeKey | ContentKey | TitleKey
    | TargetShootingKey | BoardGameKey | DragDropKey | QuizKey

  /** The JSON name of a top-level key. */
  function KeyName(k: TopKey): string
  {
    match k
    case CurriculumKey => "curriculum"
    case StyleKey => "style"
    case GameRulesKey => "gameRules"
    case NarrativeKey => "narrative"
    case ContentKey => "content"
    case TitleKey => "title_suggestion"
    case TargetShootingKey => "targetShooting"
    case BoardGameKey => "boardGame"
    case DragDropKey => "dragDrop"
    case QuizKey => "quiz"
  }

  /** The top-level object of the response schema: its properties and its required list. */
  datatype ResponseSchema = ResponseSchema(properties: map<TopKey, Schema>, required: seq<TopKey>)

  /** The keys that are always required, in the order the schema lists them. */
  const BaseRequired: seq<TopKey> := [CurriculumKey, StyleKey, GameRulesKey, NarrativeKey, ContentKey, TitleKey]

  function TargetSchema(): Schema
  {
    var props := map["id" := Str(), "title" := Str(), "description" := Str(),
          "points" := SNumber(NoDescription), "type" := SString(NoDescription, TargetKindNames)];
    var req := ["title", "description", "points", "type"];
    SObject(NoDescription, props, req)
  }

  function TargetShootingSchema(): Schema
  {
    var props := map["timeLimit" := Str(), "difficulty" := Str(), "levelsCount" := Str(), "targets" := SArray(TargetSchema())];
    var req := ["timeLimit", "difficulty", "levelsCount", "targets"];
    SObject(NoDescription, props, req)
  }

  function HouseSchema(): Schema
  {
    var props := map["number" := SNumber(NoDescription), "type" := SString(NoDescription, HouseKindNames),
          "title" := Str(), "description" := Str(), "action" := Str()];
    var req := ["number", "type", "title", "description"];
    SObject(NoDescription, props, req)
  }

  function BoardGameSchema(levelAmount: int): (s: Schema)
    ensures s.SObject? && "totalHouses" in s.properties && s.properties["totalHouses"].SNumber?
    ensures s.properties["totalHouses"].description == MustBe(BoardHouseCount(levelAmount))
  {
    var props := map["totalHouses" := SNumber(MustBe(SchemaHouseCount(levelAmount))),
          "playersConfig" := SString(Note("Ex: 2 Jogadores"), []),
          "diceConfig" := SString(Note("Ex: 1 Dado D6"), []),
          "houses" := SArray(HouseSchema())];
    var req := ["totalHouses", "houses"];
    SObject(NoDescription, props, req)
  }

  function PairSchema(): Schema
  {
    var props := map["item" := Str(), "zone" := Str()];
    var req := ["item", "zone"];
    SObject(NoDescription, props, req)
  }

  function LevelSchema(): Schema
  {
    var props := map["title" := Str(), "description" := Str(), "pairs" := SArray(PairSchema())];
    var req := ["title", "description", "pairs"];
    SObject(NoDescription, props, req)
  }

  function DragDropSchema(): Schema
  {
    var props := map["levels" := SArray(LevelSchema())];
    var req := ["levels"];
    SObject(NoDescription, props, req)
  }

  function QuizSchema(): Schema
  {
    var props := map["question" := Str(), "options" := SArray(Str()), "correctAnswer" := SInteger, "explanation" := Str()];
    var req := ["question", "options", "correctAnswer"];
    SArray(SObject(NoDescription, props, req))
  }

  /** The response schema: the base sections, then one key per matching keyword, then the quiz when asked for. */
  function SchemaFor(p: GenerateParams): ResponseSchema
  {
    SchemaOf(Classify(p.gameType), LevelAmount(p.amountLevels), Truthy(p.includeQuiz))
  }

  function SchemaOf(k: GameKinds, levelAmount: int, includeQuiz: bool): ResponseSchema
  {
    ResponseSchema(PropertiesOf(k, levelAmount, includeQuiz), RequiredOf(k, includeQuiz))
  }

  /** The keys of the base properties. */
  const BaseKeys: set<TopKey> := {CurriculumKey, StyleKey, GameRulesKey, NarrativeKey, ContentKey, TitleKey}

  /** The keys the schema declares: the base ones, one per matching keyword, and the quiz when asked for. */
  function DeclaredKeys(k: GameKinds, includeQuiz: bool): set<TopKey>
  {
    BaseKeys
      + (if k.targetShooting then {TargetShootingKey} else {})
      + (if k.boardGame then {BoardGameKey} else {})
      + (if k.dragDrop then {DragDropKey} else {})
      + (if includeQuiz then {QuizKey} else {})
  }

  /** The schema the service declares under a top-level key. */
  function PropertySchema(key: TopKey, levelAmount: int): Schema
  {
    match key
    case CurriculumKey => TextObject(NoDescription, SectionKeys(CurriculumSection))
    case StyleKey => TextObject(NoDescription, SectionKeys(StyleSection))
    case GameRulesKey => TextObject(Note("Resumo textual das regras"), SectionKeys(GameRulesSection))
    case NarrativeKey => TextObject(NoDescription, SectionKeys(NarrativeSection))
    case ContentKey => TextObject(NoDescription, SectionKeys(ContentSection))
    case TitleKey => Str()
    case TargetShootingKey => TargetShootingSchema()
    case BoardGameKey => BoardGameSchema(levelAmount)
    case DragDropKey => DragDropSchema()
    case QuizKey => QuizSchema()
  }

  function PropertiesOf(k: GameKinds, levelAmount: int, includeQuiz: bool): map<TopKey, Schema>
  {
    PropertiesOver(DeclaredKeys(k, includeQuiz), levelAmount)
  }

  /** The properties object declaring exactly `keys`. */
  function PropertiesOver(keys: set<TopKey>, levelAmount: int): map<TopKey, Schema>
  {
    map key | key in keys :: PropertySchema(key, levelAmount)
  }

  lemma AddProperty(keys: set<TopKey>, key: TopKey, levelAmount: int)
    ensures PropertiesOver(keys, levelAmount)[key := PropertySchema(key, levelAmount)]
      == PropertiesOver(keys + {key}, levelAmount)
  {
  }

  /** The required list, in the order the keys are pushed. */
  function RequiredOf(k: GameKinds, includeQuiz: bool): seq<TopKey>
  {
    var req1 := if k.targetShooting then BaseRequired + [TargetShootingKey] else BaseRequired;
    var req2 := if k.boardGame then req1 + [BoardGameKey] else req1;
    var req3 := if k.dragDrop then req2 + [DragDropKey] else req2;
    if includeQuiz then req3 + [QuizKey] else req3
  }

  ghost predicate NoRepeats(s: seq<TopKey>)
  {
    forall i, j :: 0 <= i < j < |s| ==> s[i] != s[j]
  }

  lemma AppendNew(s: seq<TopKey>, key: TopKey)
    requires NoRepeats(s) && key !in s
    ensures NoRepeats(s + [key]) && (s + [key])[..|s|] == s
  {
  }

  /**
   * Each variant key is declared and required exactly when its own keyword
   * matched, independently of the others, and the quiz key exactly when a
   * quiz is asked for.
   */
  lemma VariantKeysIndependent(k: GameKinds, levelAmount: int, includeQuiz: bool)
    ensures var props := PropertiesOf(k, levelAmount, includeQuiz);
      var req := RequiredOf(k, includeQuiz);
      && (TargetShootingKey in props <==> k.targetShooting) && (TargetShootingKey in req <==> k.targetShooting)
      && (BoardGameKey in props <==> k.boardGame) && (BoardGameKey in req <==> k.boardGame)
      && (DragDropKey in props <==> k.dragDrop) && (DragDropKey in req <==> k.dragDrop)
      && (QuizKey in props <==> includeQuiz) && (QuizKey in req <==> includeQuiz)
  {
    TargetShootingDeclared(k, levelAmount, includeQuiz);
    BoardGameDeclared(k, levelAmount, includeQuiz);
    DragDropDeclared(k, levelAmount, includeQuiz);
    QuizDeclared(k, levelAmount, includeQuiz);
  }

  lemma TargetShootingDeclared(k: GameKinds, levelAmount: int, includeQuiz: bool)
    ensures TargetShootingKey in PropertiesOf(k, levelAmount, includeQuiz) <==> k.targetShooting
  {
  }

  lemma BoardGameDeclared(k: GameKinds, levelAmount: int, includeQuiz: bool)
    ensures BoardGameKey in PropertiesOf(k, levelAmount, includeQuiz) <==> k.boardGame
  {
  }

  lemma DragDropDeclared(k: GameKinds, levelAmount: int, includeQuiz: bool)
    ensures DragDropKey in PropertiesOf(k, levelAmount, includeQuiz) <==> k.dragDrop
  {
  }

  lemma QuizDeclared(k: GameKinds, levelAmount: int, includeQuiz: bool)
    ensures QuizKey in PropertiesOf(k, levelAmount, includeQuiz) <==> includeQuiz
  {
  }

  /** The required list begins with the six base keys, in order, and repeats no key. */
  lemma RequiredListShape(k: GameKinds, includeQuiz: bool)
    ensures var req := RequiredOf(k, includeQuiz);
      && req[..6] == BaseRequired
      && (forall i, j :: 0 <= i < j < |req| ==> req[i] != req[j])
  {
    var req1 := if k.targetShooting then BaseRequired + [TargetShootingKey] else BaseRequired;
    var req2 := if k.boardGame then req1 + [BoardGameKey] else req1;
    var req3 := if k.dragDrop then req2 + [DragDropKey] else req2;
    if k.targetShooting { AppendNew(BaseRequired, TargetShootingKey); }
    if k.boardGame { AppendNew(req1, BoardGameKey); }
    if k.dragDrop { AppendNew(req2, DragDropKey); }
    if includeQuiz { AppendNew(req3, QuizKey); }
  }

  /** Every required key is a declared property. */
  lemma RequiredAreDeclared(k: GameKinds, levelAmount: int, includeQuiz: bool)
    ensures var props := PropertiesOf(k, levelAmount, includeQuiz);
      forall key :: key in RequiredOf(k, includeQuiz) ==> key in props
  {
  }

  /** A required list whose every entry is declared, over declared values that are themselves well formed. */
  lemma ObjectWellFormed(d: Description, props: map<string, Schema>, req: seq<string>)
    requires forall i :: 0 <= i < |req| ==> req[i] in props
    requires forall key :: key in props ==> RequiredDeclared(props[key])
    ensures RequiredDeclared(SObject(d, props, req))
  {
  }

  lemma TargetShootingWellFormed()
    ensures RequiredDeclared(TargetShootingSchema())
  {
    var target := TargetSchema();
    assert target.required[0] in target.properties && target.required[1] in target.properties;
    assert target.required[2] in target.properties && target.required[3] in target.properties;
    ObjectWellFormed(NoDescription, target.properties, target.required);
    var outer := TargetShootingSchema();
    assert outer.required[0] in outer.properties && outer.required[1] in outer.properties;
    assert outer.required[2] in outer.properties && outer.required[3] in outer.properties;
    assert RequiredDeclared(SArray(target));
    ObjectWellFormed(NoDescription, outer.properties, outer.required);
  }

  lemma BoardGameWellFormed(levelAmount: int)
    ensures RequiredDeclared(BoardGameSchema(levelAmount))
  {
    var house := HouseSchema();
    assert house.required[0] in house.properties && house.required[1] in house.properties;
    assert house.required[2] in house.properties && house.required[3] in house.properties;
    ObjectWellFormed(NoDescription, house.properties, house.required);
    var outer := BoardGameSchema(levelAmount);
    assert outer.required[0] in outer.properties && outer.required[1] in outer.properties;
    assert RequiredDeclared(SArray(house));
    ObjectWellFormed(NoDescription, outer.properties, outer.required);
  }

  lemma DragDropWellFormed()
    ensures RequiredDeclared(DragDropSchema())
  {
    var pair := PairSchema();
    assert pair.required[0] in pair.properties && pair.required[1] in pair.properties;
    ObjectWellFormed(NoDescription, pair.properties, pair.required);
    var level := LevelSchema();
    assert level.required[0] in level.properties && level.required[1] in level.properties;
    assert level.required[2] in level.properties;
    assert RequiredDeclared(SArray(pair));
    ObjectWellFormed(NoDescription, level.properties, level.required);
    var outer := DragDropSchema();
    assert outer.required[0] in outer.properties;
    assert RequiredDeclared(SArray(level));
    ObjectWellFormed(NoDescription, outer.properties, outer.required);
  }

  lemma QuizWellFormed()
    ensures RequiredDeclared(QuizSchema())
  {
    var question := QuizSchema().items;
    assert question.required[0] in question.properties && question.required[1] in question.properties;
    assert question.required[2] in question.properties;
    assert RequiredDeclared(SArray(Str()));
    ObjectWellFormed(NoDescription, question.properties, question.required);
  }

  /** Below the top level too, every `required` list names declared properties. */
  lemma SchemaWellFormed(k: GameKinds, levelAmount: int, includeQuiz: bool)
    ensures var props := PropertiesOf(k, levelAmount, includeQuiz);
      forall key :: key in props ==> RequiredDeclared(props[key])
  {
    forall key | key in PropertiesOf(k, levelAmount, includeQuiz)
      ensures RequiredDeclared(PropertySchema(key, levelAmount))
    {
      match key
      case TargetShootingKey => TargetShootingWellFormed();
      case BoardGameKey => BoardGameWellFormed(levelAmount);
      case DragDropKey => DragDropWellFormed();
      case QuizKey => QuizWellFormed();
      case _ =>
    }
  }

  /**
   * The prompt and the schema disagree when a label names two mechanics: the
   * prompt describes only the one with precedence, the schema requires both.
   */
  lemma PromptOneSchemaMany(p: GenerateParams)
    requires Classify(p.gameType).boardGame && Classify(p.gameType).dragDrop
    ensures MechanicCount(PromptFor(p)) == 1
    ensures !PromptFor(p)[1].DragDropSection?
    ensures BoardGameKey in SchemaFor(p).required && DragDropKey in SchemaFor(p).required
  {
    PromptShape(p);
    VariantKeysIndependent(Classify(p.gameType), LevelAmount(p.amountLevels), Truthy(p.includeQuiz));
  }

  /** The house count of the board paragraph and of the schema's `totalHouses` description are the same. */
  lemma BoardCountsAgree(p: GenerateParams)
    requires PromptFor(p)[1].BoardGameSection?
    ensures BoardGameKey in SchemaFor(p).properties
    ensures SchemaFor(p).properties[BoardGameKey].properties["totalHouses"].description
      == MustBe(PromptFor(p)[1].houses)
  {
    VariantKeysIndependent(Classify(p.gameType), LevelAmount(p.amountLevels), Truthy(p.includeQuiz));
  }

  // ---------------------------------------------------------------------------
  // Building the request, step by step

  datatype GenerationRequest = GenerationRequest(prompt: seq<PromptSection>, schema: ResponseSchema)

  /**
   * The request, computed as the service does: the label is lowered once and
   * tested for each keyword, the level count defaulted, then the prompt and
   * the schema are built.
   */
  method PlanRequest(p: GenerateParams) returns (req: GenerationRequest)
    ensures req.prompt == PromptFor(p)
    ensures req.schema == SchemaFor(p)
  {
    var gameTypeLower := ToLower(p.gameType);
    var isTargetShooting := Contains(gameTypeLower, "tiro ao alvo");
    var isBoardGame := Contains(gameTypeLower, "tabuleiro") || Contains(gameTypeLower, "trilha");
    var isDragDrop := Contains(gameTypeLower, "arrastar") || Contains(gameTypeLower, "drag");
    var levelAmount := NumberOr(p.amountLevels, 5);
    var kinds := GameKinds(isTargetShooting, isBoardGame, isDragDrop);
    var prompt := BuildPrompt(p, kinds, levelAmount);
    var schema := BuildSchema(kinds, levelAmount, Truthy(p.includeQuiz));
    req := GenerationRequest(prompt, schema);
  }

  /** The prompt: the inputs paragraph, then one mechanic paragraph by an if/else-if chain, then the quiz paragraph. */
  method BuildPrompt(p: GenerateParams, kinds: GameKinds, levelAmount: int) returns (prompt: seq<PromptSection>)
    requires kinds == Classify(p.gameType) && levelAmount == LevelAmount(p.amountLevels)
    ensures prompt == PromptFor(p)
  {
    prompt := [Inputs(p.level, p.year, p.subject, p.bimester, p.gameType, TextOr(p.context, DefaultContext))];
    if kinds.targetShooting {
      prompt := prompt + [TargetShootingSection(levelAmount)];
    } else if kinds.boardGame {
      prompt := prompt + [BoardGameSection(if 10 >= levelAmount then 10 else levelAmount)];
    } else if kinds.dragDrop {
      prompt := prompt + [DragDropSection(levelAmount)];
    } else {
      prompt := prompt + [GenericRulesSection(levelAmount)];
    }
    if Truthy(p.includeQuiz) {
      prompt := prompt + [QuizSection(NumberOr(p.quizCount, 5))];
    }
  }

  /** The schema: the properties object, then the required list. */
  method BuildSchema(kinds: GameKinds, levelAmount: int, includeQuiz: bool) returns (schema: ResponseSchema)
    ensures schema == SchemaOf(kinds, levelAmount, includeQuiz)
  {
    var properties := BuildProperties(kinds, levelAmount, includeQuiz);
    var requiredFields := BuildRequired(kinds, includeQuiz);
    schema := ResponseSchema(properties, requiredFields);
  }

  /** The base properties, then each variant added by its own `if`. */
  method BuildProperties(kinds: GameKinds, levelAmount: int, includeQuiz: bool) returns (properties: map<TopKey, Schema>)
    ensures properties == PropertiesOf(kinds, levelAmount, includeQuiz)
  {
    ghost var declared := BaseKeys;
    properties := PropertiesOver(BaseKeys, levelAmount);
    if kinds.targetShooting {
      AddProperty(declared, TargetShootingKey, levelAmount);
      properties, declared := properties[TargetShootingKey := PropertySchema(TargetShootingKey, levelAmount)], declared + {TargetShootingKey};
    }
    if kinds.boardGame {
      AddProperty(declared, BoardGameKey, levelAmount);
      properties, declared := properties[BoardGameKey := PropertySchema(BoardGameKey, levelAmount)], declared + {BoardGameKey};
    }
    if kinds.dragDrop {
      AddProperty(declared, DragDropKey, levelAmount);
      properties, declared := properties[DragDropKey := PropertySchema(DragDropKey, levelAmount)], declared + {DragDropKey};
    }
    if includeQuiz {
      AddProperty(declared, QuizKey, levelAmount);
      properties, declared := properties[QuizKey := PropertySchema(QuizKey, levelAmount)], declared + {QuizKey};
    }
    assert declared == DeclaredKeys(kinds, includeQuiz);
  }

  /** The base keys, then one push per matching keyword and one for the quiz. */
  method BuildRequired(kinds: GameKinds, includeQuiz: bool) returns (requiredFields: seq<TopKey>)
    ensures requiredFields == RequiredOf(kinds, includeQuiz)
  {
    requiredFields := BaseRequired;
    if kinds.targetShooting { requiredFields := requiredFields + [TargetShootingKey]; }
    if kinds.boardGame { requiredFields := requiredFields + [BoardGameKey]; }
    if kinds.dragDrop { requiredFields := requiredFields + [DragDropKey]; }
    if includeQuiz { requiredFields := requiredFields + [QuizKey]; }
  }

  // ---------------------------------------------------------------------------
  // The reply

  datatype GenerationError = NoResponse

  /** The reply text is handed on for decoding; a missing or empty reply is an error. */
  function AcceptReply(text: Option<string>): (r: Result<string, GenerationError>)
    ensures r.Failure? <==> text.None? || text.value == ""
    ensures r.Success? ==> r.value == text.value && r.value != ""
  {
    if text.Some? && text.value != "" then Success(text.value) else Failure(NoResponse)
  }
}
