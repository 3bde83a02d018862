/**
 * The editing page's logic on canvas values: which text field a path names,
 * what reading and writing that field does, the typed edits of one target, one
 * board house, one drag-drop pair or one drag-drop level, the "unsaved
 * changes" comparison, the restoration of the level amount from a stored
 * document, the form check and the title fallback.
 *
 * Everything here is a value; the page's objects and their sharing are
 * modelled in module Editor on top of these functions.
 */
module CanvasEdits {
  import opened Wrappers
  import opened CanvasTypes
  import opened Generation

  // ---------------------------------------------------------------------------
  // Paths to text fields

  /** The editable text fields: the title suggestion, or field `index` of a section. */
  datatype FieldRef = TitleField | SectionField(section: SectionName, index: nat)

  ghost predicate ValidRef(r: FieldRef)
  {
    r.SectionField? ==> r.index < |SectionKeys(r.section)|
  }

  /** The position of the first occurrence of `k` in `keys`. */
  function IndexOf(keys: seq<string>, k: string): (i: nat)
    requires k in keys
    ensures i < |keys| && keys[i] == k
    ensures forall j :: 0 <= j < i ==> keys[j] != k
  {
    if keys[0] == k then 0 else 1 + IndexOf(keys[1..], k)
  }

  /** The document key of each section maps back to that section. */
  lemma SectionNamedKey(n: SectionName)
    ensures SectionNamed(SectionKey(n)) == Some(n)
  {
  }

  /** No section declares the same field key twice. */
  lemma SectionKeysDistinct(n: SectionName)
    ensures DistinctKeys(SectionKeys(n))
  {
  }

  /**
   * The field a path of document keys names: `["title_suggestion"]`, or a
   * section key followed by one of that section's field keys.
   */
  function ResolvePath(path: seq<string>): (r: Option<FieldRef>)
    ensures r.Some? ==> ValidRef(r.value)
  {
    if path == ["title_suggestion"] then Some(TitleField)
    else if |path| == 2 && SectionNamed(path[0]).Some? && path[1] in SectionKeys(SectionNamed(path[0]).value) then
      var n := SectionNamed(path[0]).value;
      Some(SectionField(n, IndexOf(SectionKeys(n), path[1])))
    else None
  }

  /** The path of document keys that names a field. */
  function PathOf(r: FieldRef): seq<string>
    requires ValidRef(r)
  {
    match r
    case TitleField => ["title_suggestion"]
    case SectionField(n, i) => [SectionKey(n), SectionKeys(n)[i]]
  }

  /** Every field has a path, and every path that resolves is the path of its field. */
  lemma PathRoundTrip(r: FieldRef, path: seq<string>)
    requires ValidRef(r)
    ensures ResolvePath(PathOf(r)) == Some(r)
    ensures ResolvePath(path) == Some(r) ==> path == PathOf(r)
  {
    match r
    case TitleField =>
    case SectionField(n, i) =>
      SectionNamedKey(n);
      SectionKeysDistinct(n);
      var keys := SectionKeys(n);
      var j := IndexOf(keys, keys[i]);
      assert j == i;
  }

  /** The value a field holds; a section field always holds a string. */
  function GetField(c: GamifiedCanvas, r: FieldRef): (v: Option<string>)
    requires ValidRef(r)
    ensures r.SectionField? ==> v == Some(SectionValues(c, r.section)[r.index])
    ensures r.TitleField? ==> v == c.titleSuggestion
  {
    match r
    case TitleField => c.titleSuggestion
    case SectionField(n, i) => Some(SectionValues(c, n)[i])
  }

  /** The canvas whose field `r` holds `v`. */
  function SetField(c: GamifiedCanvas, r: FieldRef, v: string): (d: GamifiedCanvas)
    requires ValidRef(r)
    ensures d.quiz == c.quiz
    ensures d.targetShooting == c.targetShooting && d.boardGame == c.boardGame && d.dragDrop == c.dragDrop
  {
    match r
    case TitleField => c.(titleSuggestion := Some(v))
    case SectionField(n, i) => WithSectionValues(c, n, SectionValues(c, n)[i := v])
  }

  /** The canvas `c` with section `n` taken over from `d`. */
  function WithSectionOf(c: GamifiedCanvas, n: SectionName, d: GamifiedCanvas): (r: GamifiedCanvas)
    ensures SectionValues(r, n) == SectionValues(d, n)
    ensures forall m :: m != n ==> SectionValues(r, m) == SectionValues(c, m)
    ensures r.titleSuggestion == c.titleSuggestion && r.quiz == c.quiz
    ensures r.targetShooting == c.targetShooting && r.boardGame == c.boardGame && r.dragDrop == c.dragDrop
  {
    match n
    case CurriculumSection => c.(curriculum := d.curriculum)
    case StyleSection => c.(style := d.style)
    case GameRulesSection => c.(gameRules := d.gameRules)
    case NarrativeSection => c.(narrative := d.narrative)
    case ContentSection => c.(content := d.content)
  }

  /**
   * A section write only depends on, and only changes, the written section:
   * two canvases that agree on it get the same new section, and everything
   * else stays as it was.
   */
  lemma SetFieldIsLocal(c: GamifiedCanvas, d: GamifiedCanvas, r: FieldRef, v: string)
    requires ValidRef(r) && r.SectionField?
    requires SectionValues(c, r.section) == SectionValues(d, r.section)
    ensures SetField(d, r, v) == WithSectionOf(d, r.section, SetField(c, r, v))
  {
    var n := r.section;
    var e := SetField(d, r, v);
    var f := WithSectionOf(d, n, SetField(c, r, v));
    assert SectionValues(e, n) == SectionValues(f, n);
    CanvasBySections(e, f);
  }

  /** Reading a field after writing it gives the written value; every other field keeps its value. */
  lemma GetAfterSet(c: GamifiedCanvas, r: FieldRef, v: string, s: FieldRef)
    requires ValidRef(r) && ValidRef(s)
    ensures GetField(SetField(c, r, v), r) == Some(v)
    ensures s != r ==> GetField(SetField(c, r, v), s) == GetField(c, s)
  {
  }

  /** Writing back the value a section field already holds changes nothing. */
  lemma SetUnchangedValue(c: GamifiedCanvas, r: FieldRef)
    requires ValidRef(r) && r.SectionField?
    ensures SetField(c, r, GetField(c, r).value) == c
  {
    var d := SetField(c, r, GetField(c, r).value);
    assert SectionValues(c, r.section)[r.index := SectionValues(c, r.section)[r.index]] == SectionValues(c, r.section);
    CanvasBySections(d, c);
  }

  /** A later write to the same field overrides an earlier one. */
  lemma SetTwice(c: GamifiedCanvas, r: FieldRef, v: string, w: string)
    requires ValidRef(r)
    ensures SetField(SetField(c, r, v), r, w) == SetField(c, r, w)
  {
    var d := SetField(SetField(c, r, v), r, w);
    var e := SetField(c, r, w);
    if r.SectionField? {
      forall n ensures SectionValues(d, n) == SectionValues(e, n) {
        if n == r.section {
          assert SectionValues(c, n)[r.index := v][r.index := w] == SectionValues(c, n)[r.index := w];
        }
      }
      CanvasBySections(d, e);
    }
  }

  // ---------------------------------------------------------------------------
  // Typed edits of one element of a mechanic

  /** A change of one field of a target (`keyof TargetItem`). */
  datatype TargetEdit =
    | SetTargetId(id: string)
    | SetTargetTitle(title: string)
    | SetTargetDescription(description: string)
    | SetTargetPoints(points: int)
    | SetTargetKind(kind: TargetKind)

  function ApplyTargetEdit(t: TargetItem, e: TargetEdit): (u: TargetItem)
  {
    match e
    case SetTargetId(x) => t.(id := x)
    case SetTargetTitle(x) => t.(title := x)
    case SetTargetDescription(x) => t.(description := x)
    case SetTargetPoints(x) => t.(points := x)
    case SetTargetKind(x) => t.(kind := x)
  }

  /** A change of one field of a board house (`keyof BoardHouse`). */
  datatype HouseEdit =
    | SetHouseNumber(number: int)
    | SetHouseKind(kind: HouseKind)
    | SetHouseTitle(title: string)
    | SetHouseDescription(description: string)
    | SetHouseAction(action: string)

  function ApplyHouseEdit(h: BoardHouse, e: HouseEdit): (u: BoardHouse)
  {
    match e
    case SetHouseNumber(x) => h.(number := x)
    case SetHouseKind(x) => h.(kind := x)
    case SetHouseTitle(x) => h.(title := x)
    case SetHouseDescription(x) => h.(description := x)
    case SetHouseAction(x) => h.(action := Some(x))
  }

  /** A change of one field of a drag-drop pair. */
  datatype PairEdit = SetItem(item: string) | SetZone(zone: string)

  function ApplyPairEdit(p: DragDropPair, e: PairEdit): (u: DragDropPair)
  {
    match e
    case SetItem(x) => p.(item := x)
    case SetZone(x) => p.(zone := x)
  }

  /** A change of a drag-drop level's title or description. */
  datatype LevelInfoEdit = SetLevelTitle(title: string) | SetLevelDescription(description: string)

  function ApplyLevelInfoEdit(l: DragDropLevel, e: LevelInfoEdit): (u: DragDropLevel)
    ensures u.pairs == l.pairs
  {
    match e
    case SetLevelTitle(x) => l.(title := x)
    case SetLevelDescription(x) => l.(description := x)
  }

  /** All parts of two canvases but the mechanic variants agree. */
  ghost predicate SameOutsideVariants(c: GamifiedCanvas, d: GamifiedCanvas)
  {
    d.curriculum == c.curriculum && d.style == c.style && d.gameRules == c.gameRules
    && d.narrative == c.narrative && d.content == c.content
    && d.titleSuggestion == c.titleSuggestion && d.quiz == c.quiz
  }

  /**
   * Target `index` edited; `None` when the canvas has no target-shooting part
   * (the handler then returns without a change).
   */
  function EditTarget(c: GamifiedCanvas, index: nat, e: TargetEdit): (r: Option<GamifiedCanvas>)
    requires c.targetShooting.Some? ==> index < |c.targetShooting.value.targets|
    ensures r.None? <==> c.targetShooting.None?
    ensures r.Some? ==> (SameOutsideVariants(c, r.value)
                         && r.value.boardGame == c.boardGame && r.value.dragDrop == c.dragDrop)
    ensures r.Some? ==>
      var old_ := c.targetShooting.value;
      var new_ := r.value.targetShooting;
      new_.Some? && new_.value.targets == old_.targets[index := ApplyTargetEdit(old_.targets[index], e)]
      && new_.value.(targets := old_.targets) == old_
  {
    match c.targetShooting
    case None => None
    case Some(ts) =>
      var targets := ts.targets[index := ApplyTargetEdit(ts.targets[index], e)];
      Some(c.(targetShooting := Some(ts.(targets := targets))))
  }

  /** House `index` edited; `None` when the canvas has no board game. */
  function EditBoardHouse(c: GamifiedCanvas, index: nat, e: HouseEdit): (r: Option<GamifiedCanvas>)
    requires c.boardGame.Some? ==> index < |c.boardGame.value.houses|
    ensures r.None? <==> c.boardGame.None?
    ensures r.Some? ==> (SameOutsideVariants(c, r.value)
                         && r.value.targetShooting == c.targetShooting && r.value.dragDrop == c.dragDrop)
    ensures r.Some? ==>
      var old_ := c.boardGame.value;
      var new_ := r.value.boardGame;
      new_.Some? && new_.value.houses == old_.houses[index := ApplyHouseEdit(old_.houses[index], e)]
      && new_.value.(houses := old_.houses) == old_
  {
    match c.boardGame
    case None => None
    case Some(bg) =>
      var houses := bg.houses[index := ApplyHouseEdit(bg.houses[index], e)];
      Some(c.(boardGame := Some(bg.(houses := houses))))
  }

  /** Pair `pairIndex` of level `levelIndex` edited; `None` when the canvas has no drag-drop part. */
  function EditDragDropPair(c: GamifiedCanvas, levelIndex: nat, pairIndex: nat, e: PairEdit): (r: Option<GamifiedCanvas>)
    requires c.dragDrop.Some? ==> levelIndex < |c.dragDrop.value.levels|
    requires c.dragDrop.Some? ==> pairIndex < |c.dragDrop.value.levels[levelIndex].pairs|
    ensures r.None? <==> c.dragDrop.None?
    ensures r.Some? ==> (SameOutsideVariants(c, r.value)
                         && r.value.targetShooting == c.targetShooting && r.value.boardGame == c.boardGame)
    ensures r.Some? ==>
      var levels := c.dragDrop.value.levels;
      var level := levels[levelIndex];
      var pairs := level.pairs[pairIndex := ApplyPairEdit(level.pairs[pairIndex], e)];
      r.value.dragDrop == Some(DragDropData(levels[levelIndex := level.(pairs := pairs)]))
  {
    match c.dragDrop
    case None => None
    case Some(dd) =>
      var level := dd.levels[levelIndex];
      var pairs := level.pairs[pairIndex := ApplyPairEdit(level.pairs[pairIndex], e)];
      Some(c.(dragDrop := Some(dd.(levels := dd.levels[levelIndex := level.(pairs := pairs)]))))
  }

  /** Title or description of level `levelIndex` edited; `None` when the canvas has no drag-drop part. */
  function EditDragDropLevelInfo(c: GamifiedCanvas, levelIndex: nat, e: LevelInfoEdit): (r: Option<GamifiedCanvas>)
    requires c.dragDrop.Some? ==> levelIndex < |c.dragDrop.value.levels|
    ensures r.None? <==> c.dragDrop.None?
    ensures r.Some? ==> (SameOutsideVariants(c, r.value)
                         && r.value.targetShooting == c.targetShooting && r.value.boardGame == c.boardGame)
    ensures r.Some? ==>
      var levels := c.dragDrop.value.levels;
      r.value.dragDrop == Some(DragDropData(levels[levelIndex := ApplyLevelInfoEdit(levels[levelIndex], e)]))
  {
    match c.dragDrop
    case None => None
    case Some(dd) =>
      Some(c.(dragDrop := Some(dd.(levels := dd.levels[levelIndex := ApplyLevelInfoEdit(dd.levels[levelIndex], e)]))))
  }

  /** A target edit keeps the number of targets. */
  lemma TargetEditKeepsCount(c: GamifiedCanvas, index: nat, e: TargetEdit)
    requires c.targetShooting.Some? ==> index < |c.targetShooting.value.targets|
    ensures var r := EditTarget(c, index, e);
      r.Some? ==> |r.value.targetShooting.value.targets| == |c.targetShooting.value.targets|
  {
  }

  /** A house edit keeps the number of houses. */
  lemma HouseEditKeepsCount(c: GamifiedCanvas, index: nat, e: HouseEdit)
    requires c.boardGame.Some? ==> index < |c.boardGame.value.houses|
    ensures var r := EditBoardHouse(c, index, e);
      r.Some? ==> |r.value.boardGame.value.houses| == |c.boardGame.value.houses|
  {
  }

  /** A pair edit keeps the number of levels and the number of pairs of every level. */
  lemma PairEditKeepsCounts(c: GamifiedCanvas, levelIndex: nat, pairIndex: nat, e: PairEdit)
    requires c.dragDrop.Some? ==> levelIndex < |c.dragDrop.value.levels|
    requires c.dragDrop.Some? ==> pairIndex < |c.dragDrop.value.levels[levelIndex].pairs|
    ensures var r := EditDragDropPair(c, levelIndex, pairIndex, e);
      r.Some? ==> (|r.value.dragDrop.value.levels| == |c.dragDrop.value.levels|
                   && forall k :: 0 <= k < |c.dragDrop.value.levels| ==>
                        |r.value.dragDrop.value.levels[k].pairs| == |c.dragDrop.value.levels[k].pairs|)
  {
  }

  /** A level title or description edit keeps the number of levels and every level's pairs. */
  lemma LevelInfoEditKeepsCounts(c: GamifiedCanvas, levelIndex: nat, e: LevelInfoEdit)
    requires c.dragDrop.Some? ==> levelIndex < |c.dragDrop.value.levels|
    ensures var r := EditDragDropLevelInfo(c, levelIndex, e);
      r.Some? ==> (|r.value.dragDrop.value.levels| == |c.dragDrop.value.levels|
                   && forall k :: 0 <= k < |c.dragDrop.value.levels| ==>
                        r.value.dragDrop.value.levels[k].pairs == c.dragDrop.value.levels[k].pairs)
  {
  }

  // ---------------------------------------------------------------------------
  // Unsaved changes

  /**
   * Whether the save button is enabled: never without a document, always when
   * there is no saved snapshot, and otherwise when the two differ.
   */
  function IsDirty(current: Option<GamifiedCanvas>, saved: Option<GamifiedCanvas>): (dirty: bool)
    ensures current.None? ==> !dirty
    ensures current.Some? && saved.None? ==> dirty
    ensures current.Some? && saved.Some? ==> (dirty <==> current.value != saved.value)
  {
    if current.None? then false
    else if saved.None? then true
    else current.value != saved.value
  }

  /** A document compared with itself is clean, and a field written to a new value makes it dirty. */
  lemma DirtyAfterEdit(c: GamifiedCanvas, r: FieldRef, v: string)
    requires ValidRef(r)
    ensures !IsDirty(Some(c), Some(c))
    ensures IsDirty(Some(SetField(c, r, v)), Some(c)) <==> GetField(c, r) != Some(v)
  {
    GetAfterSet(c, r, v, r);
    if GetField(c, r) == Some(v) && r.SectionField? {
      SetUnchangedValue(c, r);
    }
  }

  // ---------------------------------------------------------------------------
  // Loading a stored document

  /**
   * The level amount the form shows after loading a stored canvas: the number
   * of drag-drop levels when that part exists (an empty list counts), else
   * the number of targets, else a non-zero house total; otherwise the form
   * keeps `current`.
   */
  function RestoredAmountLevels(content: Option<GamifiedCanvas>, current: int): (n: int)
    ensures content.None? ==> n == current
    ensures content.Some? && content.value.dragDrop.Some? ==> n == |content.value.dragDrop.value.levels|
    ensures content.Some? && content.value.dragDrop.None? && content.value.targetShooting.Some? ==>
      n == |content.value.targetShooting.value.targets|
    ensures content.Some? && content.value.dragDrop.None? && content.value.targetShooting.None? ==>
      n == (if content.value.boardGame.Some? && content.value.boardGame.value.totalHouses != 0
            then content.value.boardGame.value.totalHouses else current)
  {
    match content
    case None => current
    case Some(c) =>
      if c.dragDrop.Some? then |c.dragDrop.value.levels|
      else if c.targetShooting.Some? then |c.targetShooting.value.targets|
      else if c.boardGame.Some? && c.boardGame.value.totalHouses != 0 then c.boardGame.value.totalHouses
      else current
  }

  /**
   * Generating with `n` levels and loading the result back: a drag-drop canvas
   * with as many levels as asked, or a target-shooting canvas with as many
   * targets, gives `n` back; a board canvas whose total follows the prompt
   * gives max(10, n), so a board game of fewer than ten levels does not
   * survive the round trip.
   */
  lemma AmountRoundTrip(c: GamifiedCanvas, n: int, current: int)
    requires n != 0
    ensures c.dragDrop.Some? && |c.dragDrop.value.levels| == n ==>
      RestoredAmountLevels(Some(c), current) == n
    ensures c.dragDrop.None? && c.targetShooting.Some? && |c.targetShooting.value.targets| == n ==>
      RestoredAmountLevels(Some(c), current) == n
    ensures (c.dragDrop.None? && c.targetShooting.None? && c.boardGame.Some?
             && c.boardGame.value.totalHouses == BoardHouseCount(n)) ==>
      (RestoredAmountLevels(Some(c), current) == BoardHouseCount(n)
       && RestoredAmountLevels(Some(c), current) >= 10
       && (RestoredAmountLevels(Some(c), current) == n <==> n >= 10))
  {
  }

  // ---------------------------------------------------------------------------
  // Form and title

  /** The form of the editor page; an absent level or period is the empty selection. */
  datatype FormState = FormState(
    level: Option<EducationLevel>,
    subject: string,
    year: string,
    bimester: Option<Bimester>,
    gameType: string,
    amountLevels: int,
    includeQuiz: bool,
    quizCount: int,
    ideaText: string)

  /** The form a fresh page starts with: first period, three levels, five questions, no quiz. */
  const InitialForm := FormState(None, "", "", Some(FirstBimester), "", 3, false, 5, "")

  /** The generate button needs a level, a subject, a year, a period and a game type. */
  predicate FormValid(f: FormState)
    ensures FormValid(f) ==> f.level.Some? && f.bimester.Some?
    ensures f.subject == "" || f.year == "" || f.gameType == "" ==> !FormValid(f)
    ensures f.level.None? || f.bimester.None? ==> !FormValid(f)
  {
    f.level.Some? && f.subject != "" && f.year != "" && f.bimester.Some? && f.gameType != ""
  }

  /** Picking a level empties subject and year, whose option lists depend on the level. */
  function WithLevel(f: FormState, l: EducationLevel): (g: FormState)
    ensures g.subject == "" && g.year == ""
    ensures !FormValid(g)
    ensures g.level == Some(l) && g.bimester == f.bimester && g.gameType == f.gameType
    ensures g.amountLevels == f.amountLevels && g.includeQuiz == f.includeQuiz
    ensures g.quizCount == f.quizCount && g.ideaText == f.ideaText
  {
    f.(level := Some(l), subject := "", year := "")
  }

  /**
   * The form of a stored script: its own fields, `questionsCount || 5`
   * questions, and the level amount restored from its content.
   */
  function FormOf(item: ScriptItem, current: FormState): (f: FormState)
    ensures f.level == Some(item.level) && f.bimester == Some(item.bimester)
    ensures f.subject == item.subject && f.year == item.year && f.gameType == item.gameType
    ensures f.includeQuiz == item.includeQuiz && f.ideaText == item.ideaText
    ensures f.quizCount != 0 && (item.questionsCount != 0 ==> f.quizCount == item.questionsCount)
    ensures item.questionsCount == 0 ==> f.quizCount == 5
    ensures f.amountLevels == RestoredAmountLevels(item.generatedContent, current.amountLevels)
  {
    FormState(Some(item.level), item.subject, item.year, Some(item.bimester), item.gameType,
              RestoredAmountLevels(item.generatedContent, current.amountLevels),
              item.includeQuiz, NumberOr(Some(item.questionsCount), 5), item.ideaText)
  }

  /** The parameters the page hands to the generator: every optional one is present. */
  function ParamsFromForm(f: FormState): (p: GenerateParams)
    requires f.level.Some? && f.bimester.Some?
    ensures p.level == LevelLabel(f.level.value) && p.bimester == BimesterLabel(f.bimester.value)
    ensures p.subject == f.subject && p.year == f.year && p.gameType == f.gameType
    ensures TextOr(p.context, DefaultContext) == (if f.ideaText != "" then f.ideaText else DefaultContext)
    ensures Truthy(p.includeQuiz) <==> f.includeQuiz
    ensures NumberOr(p.quizCount, 5) == (if f.quizCount != 0 then f.quizCount else 5)
    ensures LevelAmount(p.amountLevels) == (if f.amountLevels != 0 then f.amountLevels else 5)
  {
    GenerateParams(LevelLabel(f.level.value), f.subject, f.year, BimesterLabel(f.bimester.value), f.gameType,
                   Some(f.ideaText), Some(f.includeQuiz), Some(f.quizCount), Some(f.amountLevels))
  }

  /**
   * The prompt a valid form produces: the level and period by their labels,
   * the idea text or the default theme, and a quiz paragraph exactly when the
   * quiz box is ticked, for `quizCount || 5` questions.
   */
  lemma FormPrompt(f: FormState)
    requires FormValid(f)
    ensures var prompt := PromptFor(ParamsFromForm(f));
      && prompt[0] == Inputs(LevelLabel(f.level.value), f.year, f.subject, BimesterLabel(f.bimester.value),
                             f.gameType, if f.ideaText != "" then f.ideaText else DefaultContext)
      && (f.includeQuiz <==> |prompt| == 3)
      && (f.includeQuiz ==> prompt[2] == QuizSection(if f.quizCount != 0 then f.quizCount else 5))
  {
    PromptShape(ParamsFromForm(f));
  }

  /** The stored title: the suggestion when present and non-empty, else "Roteiro de <subject> - <year>". */
  function FinalTitle(suggestion: Option<string>, subject: string, year: string): (t: string)
    ensures t != []
    ensures suggestion.Some? && suggestion.value != [] ==> t == suggestion.value
    ensures (suggestion.None? || suggestion.value == []) ==> t == "Roteiro de " + subject + " - " + year
  {
    TextOr(suggestion, "Roteiro de " + subject + " - " + year)
  }
}
