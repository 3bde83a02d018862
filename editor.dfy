/**
 * The script editor page as objects on the heap.
 *
 * A canvas the page holds is an object whose five text sections are objects of
 * their own. Spreading a canvas (`{ ...canvas }`) makes a new canvas object
 * that shares those section objects, and the path editor writes into the
 * section object in place. After a load or a generation the page keeps one
 * and the same canvas object as both the working document and the saved
 * snapshot, so a section edit then reaches the snapshot too.
 */
module Editor {
  import opened Wrappers
  import opened CanvasTypes
  import opened Generation
  import opened CanvasEdits

  /** A nested object of a canvas: one of its five text sections, as a record the page edits in place. */
  class SectionObject<T> {
    var value: T

    constructor (value: T)
      ensures this.value == value
    {
      this.value := value;
    }
  }

  /** A canvas object. Its section objects are fixed at construction; copies may share them. */
  class CanvasObject {
    const curriculum: SectionObject<Curriculum>
    const style: SectionObject<Style>
    const gameRules: SectionObject<GameRules>
    const narrative: SectionObject<Narrative>
    const content: SectionObject<Content>
    var titleSuggestion: Option<string>
    var targetShooting: Option<TargetShootingData>
    var boardGame: Option<BoardGameData>
    var dragDrop: Option<DragDropData>
    var quiz: Option<seq<QuizQuestion>>

    ghost function Repr(): set<object>
    {
      {this, curriculum, style, gameRules, narrative, content}
    }

    /** The canvas value this object currently denotes. */
    function Value(): GamifiedCanvas
      reads this, Repr()
    {
      GamifiedCanvas(curriculum.value, style.value, gameRules.value, targetShooting, boardGame, dragDrop,
                     narrative.value, content.value, titleSuggestion, quiz)
    }

    /** A new object with new section objects, holding `c`; also the deep copy of `JSON.parse(JSON.stringify(..))`. */
    constructor FromValue(c: GamifiedCanvas)
      ensures Value() == c
      ensures fresh(curriculum) && fresh(style) && fresh(gameRules) && fresh(narrative) && fresh(content)
    {
      curriculum := new SectionObject(c.curriculum);
      style := new SectionObject(c.style);
      gameRules := new SectionObject(c.gameRules);
      narrative := new SectionObject(c.narrative);
      content := new SectionObject(c.content);
      titleSuggestion, targetShooting, boardGame, dragDrop, quiz :=
        c.titleSuggestion, c.targetShooting, c.boardGame, c.dragDrop, c.quiz;
    }

    /** `{ ...src }`: a new object that shares every section object of `src`. */
    constructor ShallowCopy(src: CanvasObject)
      ensures curriculum == src.curriculum && style == src.style && gameRules == src.gameRules
      ensures narrative == src.narrative && content == src.content
      ensures Value() == src.Value()
    {
      curriculum, style, gameRules, narrative, content :=
        src.curriculum, src.style, src.gameRules, src.narrative, src.content;
      titleSuggestion, targetShooting, boardGame, dragDrop, quiz :=
        src.titleSuggestion, src.targetShooting, src.boardGame, src.dragDrop, src.quiz;
    }

    /** A copy of `src` that shares every section object but that of `n`, a new one holding `d`'s section. */
    constructor CopyWithSection(src: CanvasObject, n: SectionName, d: GamifiedCanvas)
      ensures forall m :: m != n ==> SharesSection(this, src, m)
      ensures fresh(curriculum) || fresh(style) || fresh(gameRules) || fresh(narrative) || fresh(content)
      ensures Value() == WithSectionOf(src.Value(), n, d)
    {
      var cu, st, gr, na, co := src.curriculum, src.style, src.gameRules, src.narrative, src.content;
      if n == CurriculumSection {
        cu := new SectionObject(d.curriculum);
      } else if n == StyleSection {
        st := new SectionObject(d.style);
      } else if n == GameRulesSection {
        gr := new SectionObject(d.gameRules);
      } else if n == NarrativeSection {
        na := new SectionObject(d.narrative);
      } else {
        co := new SectionObject(d.content);
      }
      curriculum, style, gameRules, narrative, content := cu, st, gr, na, co;
      titleSuggestion, targetShooting, boardGame, dragDrop, quiz :=
        src.titleSuggestion, src.targetShooting, src.boardGame, src.dragDrop, src.quiz;
    }

    /**
     * Writes `d`'s section `n` into this object's section object, in place.
     * `other` is any other canvas object: it sees the write exactly when it
     * holds the same section object.
     */
    method WriteSection(n: SectionName, d: GamifiedCanvas, other: CanvasObject?)
      requires other != this
      modifies Repr() - {this}
      ensures Value() == WithSectionOf(old(Value()), n, d)
      ensures SharesSection(this, other, n) ==> other.Value() == WithSectionOf(old(other.Value()), n, d)
      ensures other != null && !SharesSection(this, other, n) ==> other.Value() == old(other.Value())
    {
      if n == CurriculumSection {
        curriculum.value := d.curriculum;
      } else if n == StyleSection {
        style.value := d.style;
      } else if n == GameRulesSection {
        gameRules.value := d.gameRules;
      } else if n == NarrativeSection {
        narrative.value := d.narrative;
      } else {
        content.value := d.content;
      }
    }
  }

  /** Whether two canvas objects hold the same object as section `n`. */
  ghost predicate SharesSection(a: CanvasObject?, b: CanvasObject?, n: SectionName)
  {
    a != null && b != null &&
    match n
    case CurriculumSection => a.curriculum == b.curriculum
    case StyleSection => a.style == b.style
    case GameRulesSection => a.gameRules == b.gameRules
    case NarrativeSection => a.narrative == b.narrative
    case ContentSection => a.content == b.content
  }

  /** What the page asks the document store to do. */
  datatype ScriptFields = ScriptFields(
    userId: string, authorName: string, title: string, subject: string, level: EducationLevel, year: string,
    bimester: Bimester, gameType: string, includeQuiz: bool, questionsCount: int,
    ideaText: string, content: GamifiedCanvas, status: ScriptStatus)

  datatype StoreWrite =
    | UpdateContent(docId: string, title: Option<string>, content: GamifiedCanvas)
    | UpdateScript(docId: string, fields: ScriptFields)
    | AddScript(fields: ScriptFields)

  /** The author name stored with a script: the user's display name, or "Professor(a)" without one. */
  function AuthorName(displayName: Option<string>): (name: string)
    ensures name != ""
    ensures displayName.Some? && displayName.value != "" ==> name == displayName.value
  {
    TextOr(displayName, "Professor(a)")
  }

  /**
   * The record the generate button writes: the form, the author, the final
   * title, the content, marked active; an update of the open document, or an
   * addition when there is none.
   */
  function WriteFor(f: FormState, docId: string, userId: string, displayName: Option<string>, content: GamifiedCanvas)
    : (w: StoreWrite)
    requires f.level.Some? && f.bimester.Some?
    ensures w.AddScript? <==> docId == ""
    ensures w.UpdateScript? ==> w.docId == docId
    ensures (w.AddScript? || w.UpdateScript?) && w.fields.title == FinalTitle(content.titleSuggestion, f.subject, f.year)
    ensures w.fields.content == content && w.fields.status == Active
    ensures w.fields.level == f.level.value && w.fields.bimester == f.bimester.value
    ensures w.fields.subject == f.subject && w.fields.year == f.year && w.fields.gameType == f.gameType
    ensures w.fields.includeQuiz == f.includeQuiz && w.fields.questionsCount == f.quizCount
    ensures w.fields.ideaText == f.ideaText && w.fields.userId == userId
    ensures w.fields.authorName == AuthorName(displayName)
  {
    var fields := ScriptFields(userId, AuthorName(displayName), FinalTitle(content.titleSuggestion, f.subject, f.year),
                               f.subject, f.level.value, f.year, f.bimester.value, f.gameType, f.includeQuiz,
                               f.quizCount, f.ideaText, content, Active);
    if docId != "" then UpdateScript(docId, fields) else AddScript(fields)
  }

  /** The level amount after opening a stored script, by the first part the content has. */
  method RestoreAmount(content: Option<GamifiedCanvas>, current: int) returns (amount: int)
    ensures amount == RestoredAmountLevels(content, current)
  {
    amount := current;
    if content.Some? {
      var c := content.value;
      if c.dragDrop.Some? {
        amount := |c.dragDrop.value.levels|;
      } else if c.targetShooting.Some? {
        amount := |c.targetShooting.value.targets|;
      } else if c.boardGame.Some? && c.boardGame.value.totalHouses != 0 {
        amount := c.boardGame.value.totalHouses;
      }
    }
  }

  /** The state of the editor page. An empty `currentDocId` stands for "no document yet". */
  class ScriptEditor {
    var form: FormState
    var currentDocId: string
    var generatedData: CanvasObject?
    var lastSavedData: CanvasObject?

    ghost function Footprint(): set<object>
      reads this
    {
      {this}
      + (if generatedData != null then generatedData.Repr() else {})
      + (if lastSavedData != null then lastSavedData.Repr() else {})
    }

    /** The working document. */
    function Current(): Option<GamifiedCanvas>
      reads this, Footprint()
    {
      if generatedData == null then None else Some(generatedData.Value())
    }

    /** The snapshot the save button compares against. */
    function Saved(): Option<GamifiedCanvas>
      reads this, Footprint()
    {
      if lastSavedData == null then None else Some(lastSavedData.Value())
    }

    function HasUnsavedChanges(): bool
      reads this, Footprint()
    {
      IsDirty(Current(), Saved())
    }

    /** A page opened without a stored script. */
    constructor ()
      ensures Current() == None && Saved() == None && currentDocId == "" && form == InitialForm
    {
      form := InitialForm;
      currentDocId := "";
      generatedData, lastSavedData := null, null;
    }

    /**
     * Opening a stored script: the form takes the record's fields, the level
     * amount is restored from the content, and one new canvas object becomes
     * both the working document and the saved snapshot.
     */
    method Load(item: ScriptItem)
      modifies this
      ensures form == FormOf(item, old(form))
      ensures currentDocId == item.id
      ensures Current() == item.generatedContent && Saved() == item.generatedContent
      ensures generatedData == lastSavedData
      ensures generatedData != null ==>
        fresh(generatedData) && fresh(generatedData.curriculum) && fresh(generatedData.style) &&
        fresh(generatedData.gameRules) && fresh(generatedData.narrative) && fresh(generatedData.content)
    {
      var amount := RestoreAmount(item.generatedContent, form.amountLevels);
      var document: CanvasObject? := null;
      if item.generatedContent.Some? {
        document := new CanvasObject.FromValue(item.generatedContent.value);
      }
      form := FormState(Some(item.level), item.subject, item.year, Some(item.bimester), item.gameType, amount,
                        item.includeQuiz, if item.questionsCount != 0 then item.questionsCount else 5, item.ideaText);
      generatedData, lastSavedData := document, document;
      currentDocId := item.id;
    }

    /** Choosing a level clears subject and year, whose lists depend on it. */
    method ChangeLevel(newLevel: EducationLevel)
      modifies this
      ensures form == WithLevel(old(form), newLevel)
      ensures currentDocId == old(currentDocId)
      ensures generatedData == old(generatedData) && lastSavedData == old(lastSavedData)
    {
      form := form.(level := Some(newLevel), subject := "", year := "");
    }

    /**
     * The path editor as the page has it, for a path of one key (see
     * `ResolvePath`): a shallow copy of the document with a new title
     * suggestion.
     */
    method UpdateTitle(value: string)
      modifies this
      ensures form == old(form) && currentDocId == old(currentDocId)
      ensures lastSavedData == old(lastSavedData) && Saved() == old(Saved())
      ensures old(generatedData) == null ==> generatedData == null
      ensures old(generatedData) != null ==>
        fresh(generatedData) && Current() == Some(SetField(old(Current()).value, TitleField, value))
      ensures forall n :: SharesSection(old(generatedData), lastSavedData, n) ==> SharesSection(generatedData, lastSavedData, n)
    {
      if generatedData == null {
        return;
      }
      var copy := new CanvasObject.ShallowCopy(generatedData);
      copy.titleSuggestion := Some(value);
      generatedData := copy;
    }

    /**
     * The path editor for a path of two keys: a shallow copy of the document,
     * then a write into the section object the copy shares with the old
     * document, and with any snapshot that holds the same section object.
     */
    method UpdateSectionField(field: FieldRef, value: string)
      requires ValidRef(field) && field.SectionField?
      modifies this, if generatedData != null then generatedData.Repr() - {generatedData} else {}
      ensures form == old(form) && currentDocId == old(currentDocId)
      ensures lastSavedData == old(lastSavedData)
      ensures old(generatedData) == null ==> generatedData == null
      ensures old(generatedData) != null ==>
        fresh(generatedData) && Current() == Some(SetField(old(Current()).value, field, value))
      ensures forall n :: SharesSection(old(generatedData), lastSavedData, n) ==> SharesSection(generatedData, lastSavedData, n)
      ensures !SharesSection(old(generatedData), lastSavedData, field.section) ==> Saved() == old(Saved())
      ensures SharesSection(old(generatedData), lastSavedData, field.section) ==>
        Saved() == Some(WithSectionOf(old(Saved()).value, field.section, Current().value))
    {
      if generatedData == null {
        return;
      }
      var before := generatedData.Value();
      var after := SetField(before, field, value);
      SetFieldIsLocal(before, before, field, value);
      var copy := new CanvasObject.ShallowCopy(generatedData);
      copy.WriteSection(field.section, after, lastSavedData);
      generatedData := copy;
    }

    /** The same edit with the touched section copied too: the snapshot keeps its value. */
    method UpdateFieldCopying(field: FieldRef, value: string)
      requires ValidRef(field)
      modifies this
      ensures form == old(form) && currentDocId == old(currentDocId)
      ensures lastSavedData == old(lastSavedData) && Saved() == old(Saved())
      ensures old(generatedData) == null ==> generatedData == null
      ensures old(generatedData) != null ==>
        fresh(generatedData) && Current() == Some(SetField(old(Current()).value, field, value))
    {
      if generatedData == null {
        return;
      }
      var before := generatedData.Value();
      var after := SetField(before, field, value);
      var copy: CanvasObject;
      if field.TitleField? {
        copy := new CanvasObject.ShallowCopy(generatedData);
        copy.titleSuggestion := after.titleSuggestion;
      } else {
        copy := new CanvasObject.CopyWithSection(generatedData, field.section, after);
        SetFieldIsLocal(before, before, field, value);
      }
      generatedData := copy;
    }

    /** Editing one target (an index of an existing target, as the page passes). */
    method UpdateTarget(index: nat, e: TargetEdit)
      requires generatedData != null && generatedData.targetShooting.Some? ==>
        index < |generatedData.targetShooting.value.targets|
      modifies this
      ensures form == old(form) && currentDocId == old(currentDocId)
      ensures lastSavedData == old(lastSavedData) && Saved() == old(Saved())
      ensures old(Current()).Some? && old(Current()).value.targetShooting.Some? ==>
        fresh(generatedData) && Current() == EditTarget(old(Current()).value, index, e)
      ensures old(Current()).None? || old(Current()).value.targetShooting.None? ==>
        generatedData == old(generatedData)
      ensures forall n :: SharesSection(old(generatedData), lastSavedData, n) ==> SharesSection(generatedData, lastSavedData, n)
    {
      if generatedData == null || generatedData.targetShooting.None? {
        return;
      }
      var ts := generatedData.targetShooting.value;
      var copy := new CanvasObject.ShallowCopy(generatedData);
      copy.targetShooting := Some(ts.(targets := ts.targets[index := ApplyTargetEdit(ts.targets[index], e)]));
      generatedData := copy;
    }

    /** Editing one board house. */
    method UpdateBoardHouse(index: nat, e: HouseEdit)
      requires generatedData != null && generatedData.boardGame.Some? ==>
        index < |generatedData.boardGame.value.houses|
      modifies this
      ensures form == old(form) && currentDocId == old(currentDocId)
      ensures lastSavedData == old(lastSavedData) && Saved() == old(Saved())
      ensures old(Current()).Some? && old(Current()).value.boardGame.Some? ==>
        fresh(generatedData) && Current() == EditBoardHouse(old(Current()).value, index, e)
      ensures old(Current()).None? || old(Current()).value.boardGame.None? ==>
        generatedData == old(generatedData)
      ensures forall n :: SharesSection(old(generatedData), lastSavedData, n) ==> SharesSection(generatedData, lastSavedData, n)
    {
      if generatedData == null || generatedData.boardGame.None? {
        return;
      }
      var bg := generatedData.boardGame.value;
      var copy := new CanvasObject.ShallowCopy(generatedData);
      copy.boardGame := Some(bg.(houses := bg.houses[index := ApplyHouseEdit(bg.houses[index], e)]));
      generatedData := copy;
    }

    /** Editing one pair of one drag-drop level. */
    method UpdateDragDropPair(levelIndex: nat, pairIndex: nat, e: PairEdit)
      requires generatedData != null && generatedData.dragDrop.Some? ==>
        levelIndex < |generatedData.dragDrop.value.levels|
        && pairIndex < |generatedData.dragDrop.value.levels[levelIndex].pairs|
      modifies this
      ensures form == old(form) && currentDocId == old(currentDocId)
      ensures lastSavedData == old(lastSavedData) && Saved() == old(Saved())
      ensures old(Current()).Some? && old(Current()).value.dragDrop.Some? ==>
        fresh(generatedData) && Current() == EditDragDropPair(old(Current()).value, levelIndex, pairIndex, e)
      ensures old(Current()).None? || old(Current()).value.dragDrop.None? ==>
        generatedData == old(generatedData)
      ensures forall n :: SharesSection(old(generatedData), lastSavedData, n) ==> SharesSection(generatedData, lastSavedData, n)
    {
      if generatedData == null || generatedData.dragDrop.None? {
        return;
      }
      var dd := generatedData.dragDrop.value;
      var level := dd.levels[levelIndex];
      var pairs := level.pairs[pairIndex := ApplyPairEdit(level.pairs[pairIndex], e)];
      var copy := new CanvasObject.ShallowCopy(generatedData);
      copy.dragDrop := Some(dd.(levels := dd.levels[levelIndex := level.(pairs := pairs)]));
      generatedData := copy;
    }

    /** Editing the title or description of one drag-drop level. */
    method UpdateDragDropLevelInfo(levelIndex: nat, e: LevelInfoEdit)
      requires generatedData != null && generatedData.dragDrop.Some? ==>
        levelIndex < |generatedData.dragDrop.value.levels|
      modifies this
      ensures form == old(form) && currentDocId == old(currentDocId)
      ensures lastSavedData == old(lastSavedData) && Saved() == old(Saved())
      ensures old(Current()).Some? && old(Current()).value.dragDrop.Some? ==>
        fresh(generatedData) && Current() == EditDragDropLevelInfo(old(Current()).value, levelIndex, e)
      ensures old(Current()).None? || old(Current()).value.dragDrop.None? ==>
        generatedData == old(generatedData)
      ensures forall n :: SharesSection(old(generatedData), lastSavedData, n) ==> SharesSection(generatedData, lastSavedData, n)
    {
      if generatedData == null || generatedData.dragDrop.None? {
        return;
      }
      var dd := generatedData.dragDrop.value;
      var copy := new CanvasObject.ShallowCopy(generatedData);
      copy.dragDrop := Some(dd.(levels := dd.levels[levelIndex := ApplyLevelInfoEdit(dd.levels[levelIndex], e)]));
      generatedData := copy;
    }

    /**
     * The save button: with a document, a signed-in user and a document id it
     * writes title and content to the store; when the write succeeds the
     * snapshot becomes a deep copy of the document, so the page is clean and
     * shares no section with the snapshot.
     */
    method ManualSave(signedIn: bool, writeOk: bool) returns (write: Option<StoreWrite>)
      modifies this
      ensures form == old(form)
      ensures generatedData == old(generatedData) && currentDocId == old(currentDocId)
      ensures write.None? <==> old(generatedData) == null || !signedIn || currentDocId == ""
      ensures write.Some? ==>
        write.value == UpdateContent(currentDocId, Current().value.titleSuggestion, Current().value)
      ensures write.Some? && writeOk ==>
        Saved() == Current() && !HasUnsavedChanges()
        && fresh(lastSavedData) && forall n :: !SharesSection(generatedData, lastSavedData, n)
      ensures write.None? || !writeOk ==> lastSavedData == old(lastSavedData)
    {
      if generatedData == null || !signedIn || currentDocId == "" {
        return None;
      }
      var document := generatedData.Value();
      write := Some(UpdateContent(currentDocId, document.titleSuggestion, document));
      if writeOk {
        lastSavedData := new CanvasObject.FromValue(document);
      }
    }

    /**
     * The generate button. Without a valid form or a signed-in user nothing
     * happens. Otherwise the document is cleared, the form's parameters go to
     * the generator (`Generation.PlanRequest` builds its request from them),
     * and `reply` stands for what the generator hands back (`None` for every
     * failure: no answer, an empty answer, a transport error). With
     * a reply the script is written, an update when the page has a document
     * id and an addition (which yields `newId`) when not; only when that
     * write succeeds does the reply become the document and, as the same
     * object, the snapshot. On any failure the document stays cleared.
     */
    method GenerateAndSave(signedIn: bool, userId: string, displayName: Option<string>, reply: Option<GamifiedCanvas>, writeOk: bool, newId: string)
      returns (params: Option<GenerateParams>, write: Option<StoreWrite>)
      modifies this
      ensures form == old(form)
      ensures !FormValid(form) || !signedIn ==>
        params.None? && write.None? && generatedData == old(generatedData) && lastSavedData == old(lastSavedData)
        && currentDocId == old(currentDocId)
      ensures FormValid(form) && signedIn ==> params == Some(ParamsFromForm(form))
      ensures FormValid(form) && signedIn && reply.Some? ==>
        write == Some(WriteFor(form, old(currentDocId), userId, displayName, reply.value))
      ensures FormValid(form) && signedIn && reply.Some? && writeOk ==>
        && Current() == reply && Saved() == reply && generatedData == lastSavedData
        && fresh(generatedData)
        && currentDocId == (if old(currentDocId) != "" then old(currentDocId) else newId)
      ensures FormValid(form) && signedIn && (reply.None? || !writeOk) ==>
        generatedData == null && lastSavedData == old(lastSavedData) && currentDocId == old(currentDocId)
      ensures reply.None? ==> write.None?
    {
      if !FormValid(form) || !signedIn {
        return None, None;
      }
      generatedData := null;
      params := Some(ParamsFromForm(form));
      if reply.None? {
        return params, None;
      }
      var content := reply.value;
      var title := FinalTitle(content.titleSuggestion, form.subject, form.year);
      var fields := ScriptFields(userId, AuthorName(displayName), title, form.subject, form.level.value, form.year,
                                 form.bimester.value, form.gameType, form.includeQuiz, form.quizCount,
                                 form.ideaText, content, Active);
      if currentDocId != "" {
        write := Some(UpdateScript(currentDocId, fields));
      } else {
        write := Some(AddScript(fields));
      }
      if !writeOk {
        return;
      }
      if currentDocId == "" {
        currentDocId := newId;
      }
      var document := new CanvasObject.FromValue(content);
      generatedData := document;
      lastSavedData := document;
    }
  }

  /**
   * Opening a stored script and editing one of its section fields to a new
   * value: the document now differs from what is stored, yet the page reports
   * no unsaved changes, because the edit reached the snapshot as well.
   */
  method SectionEditAfterLoad(item: ScriptItem, value: string) returns (changed: bool, dirty: bool)
    requires item.generatedContent.Some? && item.generatedContent.value.curriculum.theme != value
    ensures changed && !dirty
  {
    var page := new ScriptEditor();
    page.Load(item);
    page.UpdateSectionField(SectionField(CurriculumSection, 3), value);
    changed := page.Current() != item.generatedContent;
    dirty := page.HasUnsavedChanges();
  }

  /** The same steps with the copying edit: the page reports the change. */
  method SectionEditAfterLoadCopying(item: ScriptItem, value: string) returns (changed: bool, dirty: bool)
    requires item.generatedContent.Some? && item.generatedContent.value.curriculum.theme != value
    ensures changed && dirty
  {
    var page := new ScriptEditor();
    page.Load(item);
    page.UpdateFieldCopying(SectionField(CurriculumSection, 3), value);
    changed := page.Current() != item.generatedContent;
    dirty := page.HasUnsavedChanges();
  }
}
