/** Deferred code-action resolution: an action listed earlier carries a
    tagged payload; resolving it re-asks the compiler service for the edit
    (fix-all, refactor or organize-imports), patches the insertion point of
    two built-in extract refactors, and attaches the edit and, for a
    refactor with a rename location, a rename command to the action. */
module CodeActionResolve {
  import opened Wrappers

  datatype TextSpan = TextSpan(start: int, length: int)
  datatype TextChange = TextChange(span: TextSpan, newText: string)
  datatype FileTextChanges = FileTextChanges(fileName: string, textChanges: seq<TextChange>)

  /** A protocol edit is modelled by the file changes it is built from. */
  type WorkspaceEdit = seq<FileTextChanges>

  datatype TextRange = TextRange(pos: int, end: int)
  datatype Position = Position(line: nat, character: nat)
  datatype TextDocument = TextDocument(uri: string, text: string)

  /** The client-side "trigger rename at this position" command. */
  datatype Command = RenameCommand(uri: string, position: Position)

  /** A formatting-settings or user-preferences object, by property name. */
  type SettingsObject = map<string, string>

  datatype Settings = Settings(formatOptions: SettingsObject, preferences: SettingsObject)

  /** The payload of a listed code action, by its `type` tag. `OtherData`
      stands for every tag other than the three resolved ones. */
  datatype Data =
    | FixAllData(uri: string, fileName: string, fixIds: seq<string>)
    | RefactorData(uri: string, fileName: string, range: TextRange, refactorName: string, actionName: string)
    | OrganizeImportsData(uri: string, fileName: string)
    | OtherData(uri: string, tag: OtherTag)

  /** A `type` tag that none of the three resolvers handles. */
  type OtherTag = t: string | t != "fixAll" && t != "refactor" && t != "organizeImports" witness ""

  /** A top-level statement of a source file: its position and whether the
      compiler classifies it as an export assignment. */
  datatype Statement = Statement(pos: nat, isExportAssignment: bool)

  datatype SourceFile = SourceFile(statements: seq<Statement>, fullText: string)

  /** The compiler's answer to a refactor request. */
  datatype RefactorEdits = RefactorEdits(
    edits: seq<FileTextChanges>,
    renameFilename: Option<string>,
    renameLocation: Option<int>)

  /** The collaborators the resolver calls. A compiler call yields None when
      it throws or returns nothing. `hasVirtualFile` says whether the
      embedded-language host has a virtual file for a file name;
      `positionAt` is the document's offset-to-position mapping. */
  datatype Context = Context(
    getTextDocument: string -> Option<TextDocument>,
    formatCodeSettings: TextDocument -> SettingsObject,
    userPreferences: TextDocument -> SettingsObject,
    getCombinedCodeFix: (string, string, Settings) -> Option<seq<FileTextChanges>>,
    getEditsForRefactor: (string, TextRange, string, string, Settings) -> Option<RefactorEdits>,
    organizeImports: (string, Settings) -> Option<seq<FileTextChanges>>,
    getSourceFile: string -> SourceFile,
    hasVirtualFile: string -> bool,
    positionAt: (TextDocument, int) -> Position)

  /** The two fields resolution may set on a code action. */
  datatype ActionState = ActionState(edit: Option<WorkspaceEdit>, command: Option<Command>)

  class CodeAction {
    const title: string
    const data: Data
    var edit: Option<WorkspaceEdit>
    var command: Option<Command>

    constructor (title: string, data: Data, edit: Option<WorkspaceEdit>, command: Option<Command>)
      ensures this.title == title && this.data == data && this.edit == edit && this.command == command
    {
      this.title := title;
      this.data := data;
      this.edit := edit;
      this.command := command;
    }

    function State(): ActionState
      reads this
    {
      ActionState(edit, command)
    }
  }

  /** The refactor result object the compiler hands back; the patch step
      rewrites its edits in place. */
  class RefactorEditInfo {
    var edits: seq<FileTextChanges>
    const renameFilename: Option<string>
    const renameLocation: Option<int>

    constructor (result: RefactorEdits)
      ensures edits == result.edits && renameFilename == result.renameFilename && renameLocation == result.renameLocation
    {
      edits := result.edits;
      renameFilename := result.renameFilename;
      renameLocation := result.renameLocation;
    }
  }

  // ---------------------------------------------------------------------
  // Settings and dispatch

  /** Settings for a resolution: derived from the owning document, or both
      empty when there is no such document. */
  function SettingsFor(ctx: Context, document: Option<TextDocument>): (settings: Settings)
    ensures document.None? ==> settings.formatOptions == map[] && settings.preferences == map[]
    ensures document.Some? ==>
      settings.formatOptions == ctx.formatCodeSettings(document.value) &&
      settings.preferences == ctx.userPreferences(document.value)
  {
    if document.Some? then Settings(ctx.formatCodeSettings(document.value), ctx.userPreferences(document.value))
    else Settings(map[], map[])
  }

  datatype Route = FixAllRoute | RefactorRoute | OrganizeImportsRoute | NoRoute

  /** Which resolver handles a payload: fix-all and organize-imports by tag
      alone, refactor only when the owning document exists, and nothing
      for any other tag or for a refactor without a document. */
  function RouteFor(data: Data, hasDocument: bool): (route: Route)
    ensures route == FixAllRoute <==> data.FixAllData?
    ensures route == RefactorRoute <==> data.RefactorData? && hasDocument
    ensures route == OrganizeImportsRoute <==> data.OrganizeImportsData?
    ensures route == NoRoute <==> data.OtherData? || (data.RefactorData? && !hasDocument)
  {
    match data
    case FixAllData(_, _, _) => FixAllRoute
    case RefactorData(_, _, _, _, _) => if hasDocument then RefactorRoute else NoRoute
    case OrganizeImportsData(_, _) => OrganizeImportsRoute
    case OtherData(_, _) => NoRoute
  }

  // ---------------------------------------------------------------------
  // Fix all

  /** The changes of a list of fix results, flattened in order; a failed fix
      contributes nothing. */
  function ChangesOf(fixes: seq<Option<seq<FileTextChanges>>>): seq<FileTextChanges>
    decreases |fixes|
  {
    if |fixes| == 0 then [] else fixes[0].GetOr([]) + ChangesOf(fixes[1..])
  }

  /** One combined fix per fix id, in order. */
  function CombinedFixes(ctx: Context, fileName: string, fixIds: seq<string>, settings: Settings): seq<Option<seq<FileTextChanges>>> {
    seq(|fixIds|, i requires 0 <= i < |fixIds| => ctx.getCombinedCodeFix(fileName, fixIds[i], settings))
  }

  function FixAllChanges(ctx: Context, fileName: string, fixIds: seq<string>, settings: Settings): seq<FileTextChanges> {
    ChangesOf(CombinedFixes(ctx, fileName, fixIds, settings))
  }

  lemma {:induction false} ChangesOfAppend(a: seq<Option<seq<FileTextChanges>>>, b: seq<Option<seq<FileTextChanges>>>)
    ensures ChangesOf(a + b) == ChangesOf(a) + ChangesOf(b)
    decreases |a|
  {
    if |a| > 0 {
      assert (a + b)[1..] == a[1..] + b;
      ChangesOfAppend(a[1..], b);
    } else {
      assert a + b == b;
    }
  }

  /** Fix-all is a concatenation homomorphism on the fix ids: the changes
      for `first + second` are those for `first` followed by those for
      `second`. */
  lemma FixAllConcatenates(ctx: Context, fileName: string, first: seq<string>, second: seq<string>, settings: Settings)
    ensures FixAllChanges(ctx, fileName, first + second, settings) ==
            FixAllChanges(ctx, fileName, first, settings) + FixAllChanges(ctx, fileName, second, settings)
  {
    assert CombinedFixes(ctx, fileName, first + second, settings) ==
           CombinedFixes(ctx, fileName, first, settings) + CombinedFixes(ctx, fileName, second, settings);
    ChangesOfAppend(CombinedFixes(ctx, fileName, first, settings), CombinedFixes(ctx, fileName, second, settings));
  }

  /** A single fix id contributes its fix's changes, or nothing when the fix failed. */
  lemma FixAllSingle(ctx: Context, fileName: string, fixId: string, settings: Settings)
    ensures FixAllChanges(ctx, fileName, [fixId], settings) == ctx.getCombinedCodeFix(fileName, fixId, settings).GetOr([])
  {
    var fixes := CombinedFixes(ctx, fileName, [fixId], settings);
    assert fixes[0] == ctx.getCombinedCodeFix(fileName, fixId, settings);
    assert ChangesOf(fixes[1..]) == [] by { assert fixes[1..] == []; }
    assert ChangesOf(fixes) == fixes[0].GetOr([]) + ChangesOf(fixes[1..]);
  }

  /** A failing fix id does not affect the others: the result is as if it
      had not been listed. */
  lemma FixAllFailureIsolated(ctx: Context, fileName: string, before: seq<string>, failing: string, after: seq<string>, settings: Settings)
    requires ctx.getCombinedCodeFix(fileName, failing, settings).None?
    ensures FixAllChanges(ctx, fileName, before + [failing] + after, settings) == FixAllChanges(ctx, fileName, before + after, settings)
  {
    FixAllConcatenates(ctx, fileName, before + [failing], after, settings);
    FixAllConcatenates(ctx, fileName, before, [failing], settings);
    FixAllConcatenates(ctx, fileName, before, after, settings);
    FixAllSingle(ctx, fileName, failing, settings);
  }

  // ---------------------------------------------------------------------
  // Patching built-in extract refactors

  const GlobalScopeTitle: string := "Extract to function in global scope"
  const ModuleScopeTitle: string := "Extract to function in module scope"
  const ComponentsOptionMarker: string := "const __VLS_componentsOption"

  /** `s.slice(0, -n)`: `s` without its last `n` characters, empty when it is shorter. */
  function SliceDropLast(s: string, n: nat): (r: string)
    ensures |r| == if |s| >= n then |s| - n else 0
    ensures r == s[..|r|]
  {
    if |s| >= n then s[..|s| - n] else ""
  }

  predicate OccursAt(text: string, marker: string, i: int) {
    0 <= i && i + |marker| <= |text| && text[i..i + |marker|] == marker
  }

  function IndexOfFrom(text: string, marker: string, from: nat): (r: int)
    requires from <= |text|
    ensures r == -1 || (from <= r && OccursAt(text, marker, r))
    ensures forall i :: from <= i && (r == -1 || i < r) ==> !OccursAt(text, marker, i)
    decreases |text| - from
  {
    if OccursAt(text, marker, from) then from
    else if from == |text| then -1
    else IndexOfFrom(text, marker, from + 1)
  }

  /** `text.indexOf(marker)`: the first position where `marker` occurs, or -1 when it does not. */
  function IndexOf(text: string, marker: string): (r: int)
    ensures r == -1 <==> forall i :: !OccursAt(text, marker, i)
    ensures r != -1 ==> OccursAt(text, marker, r) && forall i :: 0 <= i < r ==> !OccursAt(text, marker, i)
  {
    IndexOfFrom(text, marker, 0)
  }

  /** Index of the first export assignment, or the number of statements when there is none. */
  function FirstExportAssignment(statements: seq<Statement>): (k: nat)
    ensures k <= |statements|
    ensures k < |statements| ==> statements[k].isExportAssignment
    ensures forall j :: 0 <= j < k ==> !statements[j].isExportAssignment
    decreases |statements|
  {
    if |statements| == 0 || statements[0].isExportAssignment then 0
    else 1 + FirstExportAssignment(statements[1..])
  }

  /** The offset just after the start of the first export assignment. */
  function PosBeforeExportAssignment(statements: seq<Statement>): Option<int> {
    var k := FirstExportAssignment(statements);
    if k < |statements| then Some(statements[k].pos + 1) else None
  }

  /** Scans the top-level statements for the first export assignment, as
      the patch step does. */
  method PosBeforeStatement(statements: seq<Statement>) returns (pos: Option<int>)
    ensures pos == PosBeforeExportAssignment(statements)
  {
    for i := 0 to |statements|
      invariant forall j :: 0 <= j < i ==> !statements[j].isExportAssignment
    {
      if statements[i].isExportAssignment {
        return Some(statements[i].pos + 1);
      }
    }
    return None;
  }

  /** The new start of the second change, chosen by the action's title:
      for the global-scope extraction, one before the generated components
      marker in the file (when the embedded-language host has a virtual file
      for it); for the module-scope extraction, just after the start of the
      first export assignment; for any other title, none. */
  function NewSecondEditPos(ctx: Context, title: string, fileName: string): Option<int> {
    var sourceFile := ctx.getSourceFile(fileName);
    if title == GlobalScopeTitle then
      if ctx.hasVirtualFile(SliceDropLast(fileName, 3)) then Some(IndexOf(sourceFile.fullText, ComponentsOptionMarker) - 1)
      else None
    else if title == ModuleScopeTitle then PosBeforeExportAssignment(sourceFile.statements)
    else None
  }

  /** Overwrites the start of the second text change of the first file's
      changes, and nothing else; None when there is no such change (the
      source then fails with a type error). */
  function SetSecondChangeStart(edits: seq<FileTextChanges>, start: int): (r: Option<seq<FileTextChanges>>)
    ensures r.Some? <==> |edits| > 0 && |edits[0].textChanges| > 1
    ensures r.Some? ==>
      && |r.value| == |edits|
      && r.value[1..] == edits[1..]
      && r.value[0].fileName == edits[0].fileName
      && |r.value[0].textChanges| == |edits[0].textChanges|
      && (forall j :: 0 <= j < |edits[0].textChanges| && j != 1 ==> r.value[0].textChanges[j] == edits[0].textChanges[j])
      && r.value[0].textChanges[1].newText == edits[0].textChanges[1].newText
      && r.value[0].textChanges[1].span.length == edits[0].textChanges[1].span.length
      && r.value[0].textChanges[1].span.start == start
  {
    if |edits| > 0 && |edits[0].textChanges| > 1 then
      var first := edits[0];
      var second := first.textChanges[1];
      var patched := second.(span := second.span.(start := start));
      Some(edits[0 := first.(textChanges := first.textChanges[1 := patched])])
    else None
  }

  /** The refactor edits after the patch step: rewritten when the new
      position is present and non-zero (the source tests it for
      truthiness), untouched otherwise; None when the rewrite fails. */
  function PatchedEdits(ctx: Context, title: string, fileName: string, edits: seq<FileTextChanges>): Option<seq<FileTextChanges>> {
    var pos := NewSecondEditPos(ctx, title, fileName);
    if pos.Some? && pos.value != 0 then SetSecondChangeStart(edits, pos.value) else Some(edits)
  }

  method PatchBuiltinEditRefactoring(ctx: Context, editInfo: RefactorEditInfo, title: string, fileName: string)
    returns (completed: bool)
    modifies editInfo
    ensures completed == PatchedEdits(ctx, title, fileName, old(editInfo.edits)).Some?
    ensures editInfo.edits == if completed then PatchedEdits(ctx, title, fileName, old(editInfo.edits)).value else old(editInfo.edits)
  {
    var sourceFile := ctx.getSourceFile(fileName);
    var newSecondEditPos: Option<int> := None;
    if title == GlobalScopeTitle {
      if !ctx.hasVirtualFile(SliceDropLast(fileName, 3)) {
        return true;
      }
      newSecondEditPos := Some(IndexOf(sourceFile.fullText, ComponentsOptionMarker) - 1);
    } else if title == ModuleScopeTitle {
      newSecondEditPos := PosBeforeStatement(sourceFile.statements);
    }
    if newSecondEditPos.Some? && newSecondEditPos.value != 0 {
      var patched := SetSecondChangeStart(editInfo.edits, newSecondEditPos.value);
      if patched.None? {
        return false;
      }
      editInfo.edits := patched.value;
    }
    return true;
  }

  /** An unrecognised title never changes the edits. */
  lemma UnrecognizedTitleLeavesEdits(ctx: Context, title: string, fileName: string, edits: seq<FileTextChanges>)
    requires title != GlobalScopeTitle && title != ModuleScopeTitle
    ensures PatchedEdits(ctx, title, fileName, edits) == Some(edits)
  {
  }

  /** Module-scope extraction with an export assignment moves the second
      change to just after that statement's start; without one it leaves the
      edits as they are. */
  lemma ModuleScopePatch(ctx: Context, fileName: string, edits: seq<FileTextChanges>)
    ensures var statements := ctx.getSourceFile(fileName).statements;
      var k := FirstExportAssignment(statements);
      PatchedEdits(ctx, ModuleScopeTitle, fileName, edits) ==
        if k < |statements| then SetSecondChangeStart(edits, statements[k].pos + 1) else Some(edits)
  {
  }

  /** Global-scope extraction without a virtual file changes nothing; with
      one, the second change's start becomes one before the marker's offset
      whenever that value is non-zero (truthy). */
  lemma GlobalScopePatch(ctx: Context, fileName: string, edits: seq<FileTextChanges>)
    ensures var p := IndexOf(ctx.getSourceFile(fileName).fullText, ComponentsOptionMarker) - 1;
      PatchedEdits(ctx, GlobalScopeTitle, fileName, edits) ==
        if ctx.hasVirtualFile(SliceDropLast(fileName, 3)) && p != 0 then SetSecondChangeStart(edits, p) else Some(edits)
  {
    assert GlobalScopeTitle != ModuleScopeTitle;
  }

  /** Global-scope extraction where the marker starts the file writes the
      start -1, which is truthy. */
  lemma GlobalScopeMarkerAtZeroWritesMinusOne(ctx: Context, fileName: string, edits: seq<FileTextChanges>)
    requires ctx.hasVirtualFile(SliceDropLast(fileName, 3))
    requires OccursAt(ctx.getSourceFile(fileName).fullText, ComponentsOptionMarker, 0)
    requires |edits| > 0 && |edits[0].textChanges| > 1
    ensures var r := PatchedEdits(ctx, GlobalScopeTitle, fileName, edits);
      r.Some? && r.value[0].textChanges[1].span.start == -1
  {
    GlobalScopePatch(ctx, fileName, edits);
  }

  /** Global-scope extraction where the marker is missing still writes the
      start: `indexOf` yields -1, so the new start is -2, which is truthy. */
  lemma GlobalScopeMissingMarkerWritesMinusTwo(ctx: Context, fileName: string, edits: seq<FileTextChanges>)
    requires ctx.hasVirtualFile(SliceDropLast(fileName, 3))
    requires forall i :: !OccursAt(ctx.getSourceFile(fileName).fullText, ComponentsOptionMarker, i)
    requires |edits| > 0 && |edits[0].textChanges| > 1
    ensures var r := PatchedEdits(ctx, GlobalScopeTitle, fileName, edits);
      r.Some? && r.value[0].textChanges[1].span.start == -2
  {
    assert GlobalScopeTitle != ModuleScopeTitle;
  }

  /** Global-scope extraction where the marker starts at offset 1 computes
      the new start 0, which is falsy, so nothing is written. */
  lemma GlobalScopeMarkerAtOneSkipsPatch(ctx: Context, fileName: string, edits: seq<FileTextChanges>)
    requires OccursAt(ctx.getSourceFile(fileName).fullText, ComponentsOptionMarker, 1)
    requires !OccursAt(ctx.getSourceFile(fileName).fullText, ComponentsOptionMarker, 0)
    ensures PatchedEdits(ctx, GlobalScopeTitle, fileName, edits) == Some(edits)
  {
    var text := ctx.getSourceFile(fileName).fullText;
    assert IndexOf(text, ComponentsOptionMarker) == 1;
  }

  // ---------------------------------------------------------------------
  // The three resolvers

  function FixAllResolved(ctx: Context, data: Data, settings: Settings, before: ActionState): ActionState
    requires data.FixAllData?
  {
    before.(edit := Some(FixAllChanges(ctx, data.fileName, data.fixIds, settings)))
  }

  /** None when the patch step fails, leaving the action as it was. */
  function RefactorResolved(ctx: Context, title: string, data: Data, document: TextDocument, settings: Settings, before: ActionState): Option<ActionState>
    requires data.RefactorData?
  {
    var editInfo := ctx.getEditsForRefactor(data.fileName, data.range, data.refactorName, data.actionName, settings);
    if editInfo.None? then Some(before)
    else
      var patched := PatchedEdits(ctx, title, data.fileName, editInfo.value.edits);
      if patched.None? then None
      else
        var command :=
          if editInfo.value.renameLocation.Some? && editInfo.value.renameFilename.Some? then
            Some(RenameCommand(document.uri, ctx.positionAt(document, editInfo.value.renameLocation.value)))
          else before.command;
        Some(ActionState(Some(patched.value), command))
  }

  function OrganizeImportsResolved(ctx: Context, data: Data, settings: Settings, before: ActionState): ActionState
    requires data.OrganizeImportsData?
  {
    before.(edit := Some(ctx.organizeImports(data.fileName, settings).GetOr([])))
  }

  /** The action's fields after resolution; None when resolution fails. */
  function Resolved(ctx: Context, title: string, data: Data, before: ActionState): Option<ActionState> {
    var document := ctx.getTextDocument(data.uri);
    var settings := SettingsFor(ctx, document);
    match RouteFor(data, document.Some?)
    case FixAllRoute => Some(FixAllResolved(ctx, data, settings, before))
    case RefactorRoute => RefactorResolved(ctx, title, data, document.value, settings, before)
    case OrganizeImportsRoute => Some(OrganizeImportsResolved(ctx, data, settings, before))
    case NoRoute => Some(before)
  }

  method ResolveFixAllCodeAction(ctx: Context, codeAction: CodeAction, data: Data, settings: Settings)
    requires data.FixAllData?
    modifies codeAction
    ensures codeAction.State() == FixAllResolved(ctx, data, settings, old(codeAction.State()))
  {
    var fixes := CombinedFixes(ctx, data.fileName, data.fixIds, settings);
    var changes := ChangesOf(fixes);
    codeAction.edit := Some(changes);
  }

  method ResolveRefactorCodeAction(ctx: Context, codeAction: CodeAction, data: Data, document: TextDocument, settings: Settings)
    returns (completed: bool)
    requires data.RefactorData?
    modifies codeAction
    ensures var r := RefactorResolved(ctx, codeAction.title, data, document, settings, old(codeAction.State()));
      completed == r.Some? && codeAction.State() == if completed then r.value else old(codeAction.State())
  {
    var result := ctx.getEditsForRefactor(data.fileName, data.range, data.refactorName, data.actionName, settings);
    if result.None? {
      return true;
    }
    var editInfo := new RefactorEditInfo(result.value);
    completed := PatchBuiltinEditRefactoring(ctx, editInfo, codeAction.title, data.fileName);
    if !completed {
      return;
    }
    codeAction.edit := Some(editInfo.edits);
    if editInfo.renameLocation.Some? && editInfo.renameFilename.Some? {
      codeAction.command := Some(RenameCommand(document.uri, ctx.positionAt(document, editInfo.renameLocation.value)));
    }
  }

  method ResolveOrganizeImportsCodeAction(ctx: Context, codeAction: CodeAction, data: Data, settings: Settings)
    requires data.OrganizeImportsData?
    modifies codeAction
    ensures codeAction.State() == OrganizeImportsResolved(ctx, data, settings, old(codeAction.State()))
  {
    var changes := ctx.organizeImports(data.fileName, settings);
    codeAction.edit := Some(changes.GetOr([]));
  }

  /** Resolves a listed code action in place. `completed` is false when the
      patch step fails, and then the action is unchanged. */
  method ResolveCodeAction(ctx: Context, codeAction: CodeAction) returns (completed: bool)
    modifies codeAction
    ensures var r := Resolved(ctx, codeAction.title, codeAction.data, old(codeAction.State()));
      completed == r.Some? && codeAction.State() == if completed then r.value else old(codeAction.State())
  {
    var data := codeAction.data;
    var document := ctx.getTextDocument(data.uri);
    var settings := SettingsFor(ctx, document);
    match RouteFor(data, document.Some?)
    case FixAllRoute =>
      ResolveFixAllCodeAction(ctx, codeAction, data, settings);
      completed := true;
    case RefactorRoute =>
      completed := ResolveRefactorCodeAction(ctx, codeAction, data, document.value, settings);
    case OrganizeImportsRoute =>
      ResolveOrganizeImportsCodeAction(ctx, codeAction, data, settings);
      completed := true;
    case NoRoute =>
      completed := true;
  }

  // ---------------------------------------------------------------------
  // Properties of resolution

  /** An unknown tag, or a refactor whose document is gone, leaves the action unchanged. */
  lemma UnroutedActionUnchanged(ctx: Context, title: string, data: Data, before: ActionState)
    requires data.OtherData? || (data.RefactorData? && ctx.getTextDocument(data.uri).None?)
    ensures Resolved(ctx, title, data, before) == Some(before)
  {
  }

  /** Without a document, every compiler call sees empty settings. */
  lemma MissingDocumentUsesEmptySettings(ctx: Context, title: string, data: Data, before: ActionState)
    requires data.FixAllData? && ctx.getTextDocument(data.uri).None?
    ensures Resolved(ctx, title, data, before) ==
      Some(before.(edit := Some(FixAllChanges(ctx, data.fileName, data.fixIds, Settings(map[], map[])))))
  {
  }

  /** Organize-imports always attaches an edit, empty when the compiler call failed. */
  lemma OrganizeImportsFailureGivesEmptyEdit(ctx: Context, title: string, data: Data, before: ActionState)
    requires data.OrganizeImportsData?
    requires ctx.organizeImports(data.fileName, SettingsFor(ctx, ctx.getTextDocument(data.uri))).None?
    ensures Resolved(ctx, title, data, before) == Some(before.(edit := Some([])))
  {
  }

  /** A refactor without edit info changes nothing; with edit info it sets
      a rename command exactly when both rename fields are present and
      otherwise keeps the command it had. */
  lemma RefactorCommand(ctx: Context, title: string, data: Data, before: ActionState)
    requires data.RefactorData? && ctx.getTextDocument(data.uri).Some?
    ensures var document := ctx.getTextDocument(data.uri).value;
      var editInfo := ctx.getEditsForRefactor(data.fileName, data.range, data.refactorName, data.actionName, SettingsFor(ctx, Some(document)));
      var r := Resolved(ctx, title, data, before);
      && (editInfo.None? ==> r == Some(before))
      && (editInfo.Some? && r.Some? ==>
            r.value.command ==
              if editInfo.value.renameLocation.Some? && editInfo.value.renameFilename.Some? then
                Some(RenameCommand(document.uri, ctx.positionAt(document, editInfo.value.renameLocation.value)))
              else before.command)
  {
  }

  /** Resolving an already resolved action again gives the same fields. */
  lemma ResolveIdempotent(ctx: Context, title: string, data: Data, before: ActionState)
    requires Resolved(ctx, title, data, before).Some?
    ensures Resolved(ctx, title, data, Resolved(ctx, title, data, before).value) == Resolved(ctx, title, data, before)
  {
  }
}
