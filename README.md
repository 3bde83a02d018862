# Canvas-Gamificado: a Dafny model of the script planner, editor and dashboard

Canvas-Gamificado helps teachers plan educational games. A teacher fills in a
form: school level, subject, year, bimester, game type, an optional idea, an
optional quiz and a number of levels. The application asks a generative model
for a "canvas", a structured game script. It covers the curriculum, style,
game rules, narrative and content sections, plus a mechanic-specific part: a
target-shooting game, a board game, or a drag-and-drop game. The script is
stored per user. The teacher can edit the script in place, save the edits,
and browse scripts on a dashboard with tabs, search and filters.

This project models four parts of that system and proves properties of them.

- `types.dfy` (module `CanvasTypes`) holds the data model of `types.ts`:
  - the canvas, its sections and its optional variants;
  - quiz questions;
  - the stored script record;
  - the closed enumerations (target kinds, house kinds, levels, bimesters, status).
- `generation.dfy` (module `Generation`) covers the request planner inside
  `generateCanvasContent` (`services/ai.ts`):
  - classifying the game-type label by keyword, ignoring case;
  - defaulting the level count;
  - the prompt, as a sequence of sections with exactly one mechanic paragraph;
  - the response schema, as a map from top-level key to shape plus a `required` list;
  - the one reply check the function owns, where an empty text is an error.

  The prompt and the schema are each built step by step (`BuildPrompt`,
  `BuildProperties`, `BuildRequired`) and proved equal to a specification
  function (`PromptFor`, `PropertiesOf`, `RequiredOf`). The lemmas are stated
  about those functions.
- `reconcile.dfy` (module `CanvasEdits`) holds the value-level semantics of the
  editor page (`components/CreateScript.tsx`):
  - field references for the path editor;
  - the four indexed element edits;
  - the dirty check;
  - restoring the level amount from a stored script;
  - form validity and the level-change reset;
  - the generation parameters taken from the form;
  - the title fallback.
- `editor.dfy` (module `Editor`) models the editor page as objects on the heap.
  - A canvas object owns five section objects, and a shallow spread shares them.
  - The `ScriptEditor` class holds the form, the document id, the working
    document (`generatedData`) and the saved snapshot (`lastSavedData`).
  - Each handler is a method whose contract gives the new state in terms of
    the `CanvasEdits` functions.
- `dashboard.dfy` (module `Dashboard`) covers the list page (`components/Dashboard.tsx`):
  - relative-time buckets and their labels;
  - the newest-first sort, as an in-place insertion sort on an array;
  - the snapshot and error handlers;
  - the tab, search, level and bimester filter.

`text.dfy` (module `Text`) gives `toLowerCase` and `includes`.
`wrappers.dfy` (module `Wrappers`) gives `Option`, `Result` and the JavaScript `||` defaults.

Three behaviours of the code are easy to misread:

- The canvas is not a tagged union. The prompt's mechanic branch is an exclusive
  `if`/`else if` chain, but the schema additions are independent `if`s. So a
  label such as "trilha drag" gets one mechanic paragraph and two variant keys
  (`Generation.PromptOneSchemaMany`).
- The reply is not validated beyond the non-empty check.
- A failed generation leaves the working document cleared. The code sets it to
  `null` before the call and never restores it.

## Model

| member | source | states |
|---|---|---|
| Text.ToLower | services/ai.ts:22 | lower-casing keeps the length and lowers each character on its own |
| Text.ToLowerIdempotent | components/Dashboard.tsx:153-155 | lowering an already lowered string changes nothing |
| Text.Contains | services/ai.ts:23-25 | `includes` is true exactly when the fragment occurs at some position |
| Text.ContainsEmpty | components/Dashboard.tsx:153-155 | every string includes the empty query |
| CanvasTypes.CorrectOption | types.ts:5-10 | the correct option exists exactly when `correctAnswer` indexes into `options`, and then it is the option at index `correctAnswer` |
| CanvasTypes.ParseTargetKind | types.ts:51 | a target's type text is accepted exactly when it is one of correct, wrong, info |
| CanvasTypes.TargetKindName | types.ts:51 | every target kind has an allowed name that parses back to it |
| CanvasTypes.ParseHouseKind | types.ts:64 | a house's type text is accepted exactly when it is one of start, info, quiz, setback, bonus, finish |
| CanvasTypes.HouseKindName | types.ts:64 | every house kind has an allowed name that parses back to it |
| CanvasTypes.SectionNamed | types.ts:104-138 | a key that names a section names the section whose key it is |
| CanvasTypes.SectionValues | types.ts:104-138 | a section has exactly one text value per declared field |
| CanvasTypes.WithSectionValues | types.ts:103-142 | replacing one section's fields leaves every other section, the title, the quiz and the variants unchanged |
| CanvasTypes.CanvasBySections | types.ts:103-142 | two canvases with equal sections, title, quiz and variants are equal |
| Generation.Classify | services/ai.ts:22-25 | a kind holds exactly when one of its keywords occurs in the lower-cased label, each kind on its own; `ClassifyIgnoresCase` and `MixedLabelMatchesTwoKinds` are stated with it |
| Generation.ClassifyIgnoresCase | services/ai.ts:22-25 | classification gives the same kinds for a label and its lower-case form |
| Generation.MixedLabelMatchesTwoKinds | services/ai.ts:22-25 | a label lowering to "trilha drag" is a board game and a drag-and-drop game at once, not target shooting |
| Generation.LevelAmount | services/ai.ts:26 | the level amount is the requested count when present and non-zero, otherwise 5, and never 0 |
| Generation.BoardHouseCount | services/ai.ts:54 | the board has max(10, level amount) houses |
| Generation.SchemaHouseCount | services/ai.ts:177 | the schema's house count is the prompt's count |
| Generation.InputsSection | services/ai.ts:32-38 | the inputs paragraph carries the game type, and the context or the fixed default instruction when the context is missing or empty |
| Generation.MechanicSection | services/ai.ts:44-77 | exactly one mechanic paragraph, with precedence target shooting over board over drag-and-drop over generic, carrying the level amount or the house count |
| Generation.MechanicCountAppend | services/ai.ts:28-84 | mechanic paragraphs of a concatenated prompt add up |
| Generation.PromptShape | services/ai.ts:28-84 | the prompt starts with the inputs, holds exactly one mechanic paragraph, and ends with a quiz paragraph for `quizCount` questions (default 5) exactly when a quiz is requested |
| Generation.TextObject | services/ai.ts:88-100 | a text object's required fields are all declared |
| Generation.BoardGameSchema | services/ai.ts:173-197 | the board schema declares a numeric `totalHouses` described as the house count |
| Generation.AddProperty | services/ai.ts:146-245 | adding a key's shape to the properties built so far gives the properties over the larger key set |
| Generation.AppendNew | services/ai.ts:249-252 | pushing a new key keeps the list free of repeats and its prefix intact |
| Generation.VariantKeysIndependent | services/ai.ts:146-252 | each variant key is declared and required exactly when its own keyword test holds, and `quiz` exactly when a quiz is requested, independently of the others |
| Generation.TargetShootingDeclared | services/ai.ts:146 | `targetShooting` is declared exactly for target-shooting labels |
| Generation.BoardGameDeclared | services/ai.ts:173 | `boardGame` is declared exactly for board-game labels |
| Generation.DragDropDeclared | services/ai.ts:200 | `dragDrop` is declared exactly for drag-and-drop labels |
| Generation.QuizDeclared | services/ai.ts:231 | `quiz` is declared exactly when a quiz is requested |
| Generation.RequiredListShape | services/ai.ts:248-252 | the required list starts with curriculum, style, gameRules, narrative, content, title_suggestion in that order and repeats no key |
| Generation.RequiredAreDeclared | services/ai.ts:87-252 | every required key is a declared property |
| Generation.ObjectWellFormed | services/ai.ts:87-245 | an object whose required fields are declared and whose fields are well formed is well formed |
| Generation.TargetShootingWellFormed | services/ai.ts:147-171 | the target-shooting shape requires only declared fields, at every depth |
| Generation.BoardGameWellFormed | services/ai.ts:174-197 | the board-game shape requires only declared fields, at every depth |
| Generation.DragDropWellFormed | services/ai.ts:201-229 | the drag-and-drop shape requires only declared fields, at every depth |
| Generation.QuizWellFormed | services/ai.ts:232-245 | the quiz shape requires only declared fields, at every depth |
| Generation.SchemaWellFormed | services/ai.ts:87-245 | every declared top-level shape requires only declared fields |
| Generation.PromptOneSchemaMany | services/ai.ts:44-77 | for a label of two mechanics, the prompt describes one and the schema requires both |
| Generation.BoardCountsAgree | services/ai.ts:54 | when the prompt has the board paragraph, the schema's `totalHouses` description states the same house count |
| Generation.PlanRequest | services/ai.ts:20-258 | the request built from the parameters has the specified prompt and schema |
| Generation.BuildPrompt | services/ai.ts:28-84 | the prompt built by appending is the specified prompt |
| Generation.BuildSchema | services/ai.ts:254-258 | the schema assembled from properties and required fields is the specified schema |
| Generation.BuildProperties | services/ai.ts:87-245 | the properties built by successive assignments are the specified map |
| Generation.BuildRequired | services/ai.ts:247-252 | the required list built by successive pushes is the specified list |
| Generation.AcceptReply | services/ai.ts:271-274 | a missing or empty reply text is an error, and any other text is passed on unchanged |
| CanvasEdits.IndexOf | components/CreateScript.tsx:181 | the position of a field key is its first occurrence |
| CanvasEdits.SectionNamedKey | types.ts:104-138 | a section's key names that section |
| CanvasEdits.SectionKeysDistinct | types.ts:104-138 | no section declares a field key twice |
| CanvasEdits.ResolvePath | components/CreateScript.tsx:173-184 | a path that resolves names a declared field: the title, or one text field of one section |
| CanvasEdits.PathRoundTrip | components/CreateScript.tsx:173-184 | each field has exactly one path, and that path resolves to it |
| CanvasEdits.GetField | types.ts:103-142 | reading a field gives that section's value at the field's position, or the title suggestion |
| CanvasEdits.SetField | components/CreateScript.tsx:173-184 | a path edit leaves the quiz and the variants unchanged |
| CanvasEdits.WithSectionOf | components/CreateScript.tsx:176-181 | taking one section from another canvas changes only that section |
| CanvasEdits.SetFieldIsLocal | components/CreateScript.tsx:176-181 | a section edit is the same whether applied to the shallow copy or to its shared section |
| CanvasEdits.GetAfterSet | components/CreateScript.tsx:173-184 | after a path edit the field reads the new value and every other field reads as before |
| CanvasEdits.SetUnchangedValue | components/CreateScript.tsx:173-184 | writing back a section field's own value changes nothing |
| CanvasEdits.SetTwice | components/CreateScript.tsx:173-184 | of two edits of the same field the later one wins |
| CanvasEdits.ApplyLevelInfoEdit | components/CreateScript.tsx:235 | a level title or description edit leaves the level's pairs untouched |
| CanvasEdits.EditTarget | components/CreateScript.tsx:186-198 | no-op without target shooting; otherwise only the edited field of `targets[index]` changes, and every other target and section stays the same |
| CanvasEdits.EditBoardHouse | components/CreateScript.tsx:200-212 | no-op without a board game; otherwise only the edited field of `houses[index]` changes, with `totalHouses`, dice and players config kept |
| CanvasEdits.EditDragDropPair | components/CreateScript.tsx:214-229 | no-op without drag-and-drop; otherwise only the pair at `pairIndex` of level `levelIndex` changes, with the other levels, the other pairs, and the level's title and description kept |
| CanvasEdits.EditDragDropLevelInfo | components/CreateScript.tsx:231-244 | no-op without drag-and-drop; otherwise only that level's title or description changes |
| CanvasEdits.TargetEditKeepsCount | components/CreateScript.tsx:186-198 | a target edit at any existing target keeps the number of targets |
| CanvasEdits.HouseEditKeepsCount | components/CreateScript.tsx:200-212 | a house edit at any existing house keeps the number of houses |
| CanvasEdits.PairEditKeepsCounts | components/CreateScript.tsx:214-229 | a pair edit keeps the number of levels and every level's number of pairs |
| CanvasEdits.LevelInfoEditKeepsCounts | components/CreateScript.tsx:231-244 | a level title or description edit keeps the number of levels and every level's pairs |
| CanvasEdits.IsDirty | components/CreateScript.tsx:158-162 | clean without a document; dirty with a document but no snapshot; otherwise dirty exactly when the two differ |
| CanvasEdits.DirtyAfterEdit | components/CreateScript.tsx:158-162 | a document compared with itself is clean, and an edit makes it dirty exactly when it changes the field |
| CanvasEdits.RestoredAmountLevels | components/CreateScript.tsx:143-149 | the level amount comes from the drag-drop level count, else the target count, else a non-zero `totalHouses`, else it is kept |
| CanvasEdits.AmountRoundTrip | components/CreateScript.tsx:143-149 | a drag-drop canvas with n levels, or (without drag-drop) a target canvas with n targets, restores n; a board canvas whose total follows the prompt restores max(10, n), so n itself only when n >= 10 |
| CanvasEdits.FormValid | components/CreateScript.tsx:170 | the form is valid only with a level, a subject, a year, a bimester and a game type; `WithLevel` and `GenerateAndSave` are stated with it |
| CanvasEdits.WithLevel | components/CreateScript.tsx:164-170 | choosing a level sets it, clears subject and year, so the form is not valid, and keeps every other field |
| CanvasEdits.FormOf | components/CreateScript.tsx:131-141 | opening a script fills the form from its record, with the quiz count taken from the record, or 5 when it is 0, and the restored level amount |
| CanvasEdits.ParamsFromForm | components/CreateScript.tsx:286-296 | the generator receives the level and bimester labels, subject, year and game type, and the idea text, quiz choice, quiz count and level amount, which the generator's own `\|\|` defaults read back as the form's values (or their defaults); `FormPrompt` is stated with it |
| CanvasEdits.FormPrompt | components/CreateScript.tsx:286-296 | a valid form's parameters give a prompt whose inputs carry the level and bimester labels, the subject, year and game type, and the idea text or the default instruction, with a quiz paragraph for `quizCount \|\| 5` questions exactly when the quiz box is ticked |
| CanvasEdits.FinalTitle | components/CreateScript.tsx:299 | the stored title is the suggestion when non-empty, otherwise "Roteiro de subject - year", and never empty |
| Editor.SectionObject.constructor | types.ts:104-138 | a section object holds the given value |
| Editor.CanvasObject.FromValue | components/CreateScript.tsx:257 | a deep copy: a new object with new section objects denoting the same canvas |
| Editor.CanvasObject.ShallowCopy | components/CreateScript.tsx:176 | a spread copy: a new object denoting the same canvas and holding the same section objects |
| Editor.CanvasObject.CopyWithSection | components/CreateScript.tsx:176-181 | a copy in which only the given section is a new object holding the new value |
| Editor.CanvasObject.WriteSection | components/CreateScript.tsx:181 | writing into a section object changes that section of this canvas and of any canvas sharing the object, and no other canvas |
| Editor.AuthorName | components/CreateScript.tsx:303 | the author is the display name when present, otherwise "Professor(a)" |
| Editor.WriteFor | components/CreateScript.tsx:299-330 | the generated script is written with the form's fields, the author, the final title, the content and status active; as an update of the open document or an addition when there is none |
| Editor.RestoreAmount | components/CreateScript.tsx:143-149 | the step-by-step restore gives the specified level amount |
| Editor.ScriptEditor.constructor | components/CreateScript.tsx:57-82 | a new page has no document, no snapshot, no document id and the initial form |
| Editor.ScriptEditor.Load | components/CreateScript.tsx:131-155 | opening a script fills the form, sets the document id, and makes one new canvas object both the document and the snapshot |
| Editor.ScriptEditor.ChangeLevel | components/CreateScript.tsx:164-168 | the form takes the level-change reset and nothing else changes |
| Editor.ScriptEditor.UpdateTitle | components/CreateScript.tsx:173-184 | a one-key path edit makes a new document with the new title and leaves the snapshot unchanged; the form and the document id are kept |
| Editor.ScriptEditor.UpdateSectionField | components/CreateScript.tsx:173-184 | a two-key path edit gives a new document with the field set; a snapshot sharing that section gets the same section, and any other snapshot is unchanged; the form and the document id are kept |
| Editor.ScriptEditor.UpdateFieldCopying | components/CreateScript.tsx:173-184 | the corrected path edit: the document gets the field set and the snapshot is unchanged; the form and the document id are kept |
| Editor.ScriptEditor.UpdateTarget | components/CreateScript.tsx:186-198 | the document becomes `EditTarget` of the old one on a fresh object, the snapshot is kept, and nothing happens without target shooting; the form and the document id are kept |
| Editor.ScriptEditor.UpdateBoardHouse | components/CreateScript.tsx:200-212 | the document becomes `EditBoardHouse` of the old one, the snapshot is kept, and nothing happens without a board game; the form and the document id are kept |
| Editor.ScriptEditor.UpdateDragDropPair | components/CreateScript.tsx:214-229 | the document becomes `EditDragDropPair` of the old one, the snapshot is kept, and nothing happens without drag-and-drop; the form and the document id are kept |
| Editor.ScriptEditor.UpdateDragDropLevelInfo | components/CreateScript.tsx:231-244 | the document becomes `EditDragDropLevelInfo` of the old one, the snapshot is kept, and nothing happens without drag-and-drop; the form and the document id are kept |
| Editor.ScriptEditor.ManualSave | components/CreateScript.tsx:246-264 | no write without a document, a user and a document id; otherwise title and content are written, and only a successful write makes the snapshot an unshared deep copy, leaving the page clean; the form and the document are kept |
| Editor.ScriptEditor.GenerateAndSave | components/CreateScript.tsx:266-341 | nothing at all (document, snapshot and document id kept) without a valid form and a user; otherwise the form's parameters go to the generator, a reply is written as `WriteFor` states, and only a successful write makes the reply the document and, as the same object, the snapshot |
| Editor.SectionEditAfterLoad | components/CreateScript.tsx:151-152 | after opening a script, a section edit that changes the document leaves the page reporting no unsaved changes |
| Editor.SectionEditAfterLoadCopying | components/CreateScript.tsx:158-184 | with the copying edit, the same steps leave the page reporting unsaved changes |
| Dashboard.ElapsedSeconds | components/Dashboard.tsx:44 | whole seconds elapsed, rounded down |
| Dashboard.FormatRelativeTime | components/Dashboard.tsx:35-52 | pending exactly for a missing or zero timestamp; otherwise now, 1-59 minutes, 1-23 hours, 1-6 days or a calendar date, each with the floor bounds of its bucket |
| Dashboard.OlderNeverLooksNewer | components/Dashboard.tsx:44-51 | an older timestamp is never shown in a finer bucket or with a smaller count than a newer one |
| Dashboard.Decimal | components/Dashboard.tsx:47-49 | a count is written with at least one digit and only digits |
| Dashboard.DecimalRoundTrip | components/Dashboard.tsx:47-49 | reading the written digits gives the count back |
| Dashboard.Label | components/Dashboard.tsx:36-51 | every bucket except the calendar date has a fixed-text label |
| Dashboard.SameDigitsBeforeSuffix | components/Dashboard.tsx:47-49 | two counts with the same label text are equal |
| Dashboard.LabelsDistinct | components/Dashboard.tsx:36-51 | distinct relative times have distinct labels |
| Dashboard.SortNewestFirst | components/Dashboard.tsx:90-95 | the list is rearranged into a permutation ordered by last modification, newest first, with a missing time counting as 0 |
| Dashboard.InsertNewestFirst | components/Dashboard.tsx:90-95 | inserting element i extends the ordered prefix by one and keeps the elements |
| Dashboard.SwapAdjacent | components/Dashboard.tsx:90-95 | swapping two neighbours exchanges exactly them |
| Dashboard.ScriptList.constructor | components/Dashboard.tsx:59-61 | a new list is empty, loading, without an error |
| Dashboard.ScriptList.OnSnapshot | components/Dashboard.tsx:83-98 | the stored list is the fetched scripts, newest first, and loading ends |
| Dashboard.ScriptList.OnError | components/Dashboard.tsx:99-107 | a failed subscription keeps the list, ends loading and sets the access-denied or the load-failed message |
| Dashboard.OnTab | components/Dashboard.tsx:149-151 | the trash tab holds exactly the deleted scripts and the scripts tab exactly the active ones; `TabsPartition` is stated with it |
| Dashboard.SearchHit | components/Dashboard.tsx:153-155 | a script is found exactly when the lower-cased query occurs in its lower-cased title or subject, and always for an empty query; `SearchIgnoresQueryCase` and `SearchIgnoresTextCase` are stated with it |
| Dashboard.Matches | components/Dashboard.tsx:148-160 | a kept script is on the tab, is found by the search and has the selected level and bimester; with an empty query exactly the scripts on the tab that pass the selected filters are kept, and with no filters either, exactly the scripts on the tab |
| Dashboard.UnselectedFiltersImposeNothing | components/Dashboard.tsx:157-158 | with no level (or no bimester) selected, a script's level (or bimester) does not affect whether it is kept |
| Dashboard.FilterScripts | components/Dashboard.tsx:147-162 | the result is an order-preserving subsequence holding every matching script as often as the list does, and nothing else |
| Dashboard.TabsPartition | components/Dashboard.tsx:149-151 | with an empty query, the scripts tab and the trash tab together hold the whole list |
| Dashboard.SearchIgnoresQueryCase | components/Dashboard.tsx:153 | a query and its lower-case form filter alike |
| Dashboard.SearchIgnoresTextCase | components/Dashboard.tsx:154-155 | scripts whose title and subject agree up to case are found by the same queries |

## Left out

- The call to the generative model and the JSON decoding of its reply (services/ai.ts:260-278) are foreign calls. The reply is a parameter: `Generation.AcceptReply` covers the empty-text check, and `Editor.ScriptEditor.GenerateAndSave` takes the decoded canvas or `None`.
- `generateQuiz` and `generateGameActivity`, and the pedagogical-activity types (`activities` and the types at types.ts:12-41), are other calls to the same service and have no owned logic to model.
- The model temperature (services/ai.ts:267) is floating-point configuration.
- The document store is left out: reads, writes and subscriptions, server timestamps, `createdAt` and the author's e-mail in the written record, and the trash, restore and permanent-delete handlers (components/Dashboard.tsx:112-145). Writes are returned as `StoreWrite` values, and their outcome is a boolean parameter.
- Authentication is an external identity provider. Whether a user is signed in, their id and their display name are parameters.
- The page's rendering, printing, the loading indicators and the half-second delay before generation are user interface only.
- Date parsing, `Timestamp.toDate`, the invalid-date check and `toLocaleDateString` (components/Dashboard.tsx:39-41, 51) are left out. Timestamps are integer milliseconds, and the current time is a parameter.
- Dashboard.Label: returns `None` for the calendar-date bucket instead of a date string, because locale date formatting is not modelled.
- Text.ToLower: lowers ASCII and the Latin-1 capitals only, not the full Unicode case mapping.
- CanvasEdits.IsDirty: compares canvases by value, not by `JSON.stringify` text, so key order is not modelled.
- CanvasEdits.ResolvePath: models only paths that name the title or a declared text field of a section. A path to a missing key would add a stray property or throw, and such paths are not modelled. The loop that walks the path is replaced by this resolution, so the editor methods take the resolved field.
- The element-edit index requirement: `CanvasEdits.EditTarget`, `CanvasEdits.EditBoardHouse`, `CanvasEdits.EditDragDropPair`, `CanvasEdits.EditDragDropLevelInfo` and the matching `Editor.ScriptEditor` methods require an index of an existing element. The page passes only rendered indices, and an out-of-range index (a sparse array or a type error in the source) is not modelled.
- Generation.PropertiesOf: the response schema's properties are a map, so the key order of the object built at services/ai.ts:87-245 is not kept (key order of a JSON object is not modelled).
- Dashboard.SortNewestFirst: does not state stability. The order among scripts with equal times is not specified.
- Editor.ScriptEditor.GenerateAndSave: the generator is not called from the method. It returns the parameters it would pass, and `Generation.PlanRequest` turns those into the request.

## Findings

| source | as written | input that shows it | evidently intended | confidence | as-written member | corrected member |
|---|---|---|---|---|---|---|
| components/CreateScript.tsx:173-184 | the path edit copies only the top-level canvas and writes into its existing section object; after a load or a generation the snapshot is that same object (lines 151-152, 332-333), so the snapshot changes too | open a stored script with content, then edit `['curriculum', 'theme']` to a different value | the page reports unsaved changes and enables the save button | not executed | Editor.SectionEditAfterLoad | Editor.SectionEditAfterLoadCopying |

`Editor.ScriptEditor.UpdateSectionField` models the edit as written.
`Editor.ScriptEditor.UpdateFieldCopying` also copies the touched section, which keeps the snapshot unchanged.
