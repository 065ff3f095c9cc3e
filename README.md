# Request handling of a language-service bridge, modelled in Dafny

This project models three small request handlers of a language-service plugin
collection. Each one sits between an editor protocol and an analysis engine.

- **JSON document cache** (`json_service.dfy`, module `JsonService`). Requests on
  JSON and JSON-with-comments documents go through `worker`. `worker` asks
  `getJsonDocument` for the parsed document. The parse is kept in a map keyed by
  document identity, together with the version it was parsed at. A lookup at the
  stored version returns the stored parse. Any other lookup parses once more and
  replaces the entry. Documents in other languages get nothing. Formatting also
  goes through `worker`. The `json.format` configuration's `enable` flag can turn
  formatting off, and the caller's options override the configured ones.
- **Code-action resolution** (`code_action_resolve.dfy`, module `CodeActionResolve`).
  A listed code action carries a tagged payload. Resolving it dispatches on the tag:
  - fix-all concatenates the changes of every fix id, in order;
  - refactor asks for the refactor's edits, patches the insertion point of two
    built-in "Extract to function" refactors, and may add a rename command;
  - organize-imports attaches the compiler's changes;
  - any other tag leaves the action as it was.
  The result is written into the action's `edit` and `command` fields.
- **Signature help** (`signature_help.dfy`, module `SignatureHelp`). It maps the
  editor's trigger kind to the compiler's trigger reason. It then turns each
  compiler signature item into a protocol signature. The label is the prefix,
  then the parameter labels joined by the separator, then the suffix.

`wrappers.dfy` holds the `Option` type that stands for JavaScript's `undefined`.

The analysis engines are modelled as oracles. In `CodeActionResolve.Context` and
`SignatureHelp.Context` they are function-typed fields. A compiler call wrapped in
`safeCall` is an oracle returning `None` when the call throws or yields nothing.
The cache and the code action are classes whose methods update their fields.
The label assembly and the statement scan are loops proved against functional
specifications.

Two behaviours of the refactor patch deserve mention:
- The global-scope patch does not fail open when the marker is missing.
  `indexOf` gives -1, so -2 is written (`GlobalScopeMissingMarkerWritesMinusTwo`).
  A marker at offset 0 gives -1, which is also written
  (`GlobalScopeMarkerAtZeroWritesMinusOne`). A marker at offset 1 gives 0, which
  is falsy, so nothing is written (`GlobalScopeMarkerAtOneSkipsPatch`).
- The rename command needs both `renameLocation` and `renameFilename`
  (`RefactorCommand`).

## Model

| member | source | states |
|---|---|---|
| `JsonService.JsonDocumentCache.constructor` | packages/json/src/index.ts:15 | the cache starts empty, with no parses |
| `JsonService.JsonDocumentCache.GetJsonDocument` | packages/json/src/index.ts:133-150 | non-JSON languages get nothing and the cache is untouched; an entry at the current version is returned with no parse; otherwise exactly one new parse of this document replaces this document's entry only; afterwards the entry's version is the document's version |
| `JsonService.JsonDocumentCache.Worker` | packages/json/src/index.ts:124-131 | the callback's result on the cached or freshly parsed document, and nothing (callback not applied) for non-JSON documents; the cache changes as in one lookup |
| `JsonService.JsonDocumentCache.ProvideDocumentFormattingEdits` | packages/json/src/index.ts:108-121 | edits exist exactly for JSON documents whose configuration enables formatting, and are the formatter's output under the merged options |
| `JsonService.LookupTwice` | packages/json/src/index.ts:138-149 | two lookups of one document at one version return the same parse, with at most one parse, and none when the entry was current |
| `JsonService.LookupAfterEdit` | packages/json/src/index.ts:138-149 | a lookup after a version change returns a different parse and costs exactly one more parse |
| `JsonService.FormatEnabled` | packages/json/src/index.ts:111-114 | a missing configuration, a missing or null `enable`, or `enable: true` allows formatting; `enable: false` forbids it |
| `JsonService.MergeOptions` | packages/json/src/index.ts:116-119 | the merged options hold every configured and every caller property; the caller's value wins on shared properties |
| `CodeActionResolve.SettingsFor` | packages/typescript/src/services/codeActionResolve.ts:15-19 | without a document both settings objects are empty; with one they are the document's derived settings |
| `CodeActionResolve.RouteFor` | packages/typescript/src/services/codeActionResolve.ts:21-31 | fix-all and organize-imports are resolved by tag; refactor is resolved if and only if its document exists; every other case is not resolved |
| `CodeActionResolve.ChangesOfAppend` | packages/typescript/src/services/codeActionResolve.ts:43 | flattening fix results distributes over concatenation of the result lists |
| `CodeActionResolve.FixAllConcatenates` | packages/typescript/src/services/codeActionResolve.ts:42-43 | the fix-all changes for `first + second` fix ids are those for `first` followed by those for `second` |
| `CodeActionResolve.FixAllSingle` | packages/typescript/src/services/codeActionResolve.ts:42-43 | one fix id contributes its fix's changes, or none when the fix failed |
| `CodeActionResolve.FixAllFailureIsolated` | packages/typescript/src/services/codeActionResolve.ts:42-43 | a failing fix id gives the same changes as leaving it out, so the other fixes are unaffected |
| `CodeActionResolve.ResolveFixAllCodeAction` | packages/typescript/src/services/codeActionResolve.ts:35-45 | sets `edit` to the ordered concatenation of the fixes' changes and leaves `command` alone |
| `CodeActionResolve.SliceDropLast` | packages/typescript/src/services/codeActionResolve.ts:80 | `slice(0, -3)`: the file name without its last three characters, or empty when shorter |
| `CodeActionResolve.IndexOf` | packages/typescript/src/services/codeActionResolve.ts:84 | the first offset where the marker occurs, and -1 exactly when it occurs nowhere |
| `CodeActionResolve.FirstExportAssignment` | packages/typescript/src/services/codeActionResolve.ts:72-76 | the index of the first export assignment: no earlier statement is one, and the end when there is none |
| `CodeActionResolve.PosBeforeStatement` | packages/typescript/src/services/codeActionResolve.ts:72-76 | the scan returns the first export assignment's position plus one, or nothing when no statement is one |
| `CodeActionResolve.SetSecondChangeStart` | packages/typescript/src/services/codeActionResolve.ts:92-94 | succeeds exactly when a first file with a second change exists, and then only that change's start differs and it equals the new offset |
| `CodeActionResolve.PatchBuiltinEditRefactoring` | packages/typescript/src/services/codeActionResolve.ts:69-95 | the edits are rewritten by the title-selected offset when it is present and non-zero, left alone otherwise, and left alone with a failure when the second change does not exist |
| `CodeActionResolve.UnrecognizedTitleLeavesEdits` | packages/typescript/src/services/codeActionResolve.ts:78-94 | a title other than the two extraction titles never changes the edits |
| `CodeActionResolve.ModuleScopePatch` | packages/typescript/src/services/codeActionResolve.ts:87-94 | module-scope extraction moves the second change to just after the first export assignment's start, and changes nothing without one |
| `CodeActionResolve.GlobalScopePatch` | packages/typescript/src/services/codeActionResolve.ts:79-94 | global-scope extraction leaves the edits unchanged without a virtual file; with one it moves the second change's start to one before the marker's offset when that value is non-zero |
| `CodeActionResolve.GlobalScopeMarkerAtZeroWritesMinusOne` | packages/typescript/src/services/codeActionResolve.ts:84-94 | a marker at offset 0 gives offset -1, which is truthy, so the second change's start becomes -1 |
| `CodeActionResolve.GlobalScopeMissingMarkerWritesMinusTwo` | packages/typescript/src/services/codeActionResolve.ts:79-94 | with a virtual file and no marker, the second change's start becomes -2 |
| `CodeActionResolve.GlobalScopeMarkerAtOneSkipsPatch` | packages/typescript/src/services/codeActionResolve.ts:84-94 | a marker at offset 1 gives offset 0, which is falsy, so the edits are unchanged |
| `CodeActionResolve.ResolveRefactorCodeAction` | packages/typescript/src/services/codeActionResolve.ts:47-67 | no edit info leaves the action unchanged; otherwise `edit` is the patched edits and a rename command at the document's position of the rename offset is set only when both rename fields exist |
| `CodeActionResolve.ResolveOrganizeImportsCodeAction` | packages/typescript/src/services/codeActionResolve.ts:97-106 | `edit` is the compiler's changes, or an empty change list when the call failed |
| `CodeActionResolve.ResolveCodeAction` | packages/typescript/src/services/codeActionResolve.ts:11-33 | the action's fields after resolution are those the routed resolver gives, and unchanged on failure |
| `CodeActionResolve.UnroutedActionUnchanged` | packages/typescript/src/services/codeActionResolve.ts:21-31 | an unknown tag, or a refactor whose document is missing, leaves both fields unchanged |
| `CodeActionResolve.MissingDocumentUsesEmptySettings` | packages/typescript/src/services/codeActionResolve.ts:15-22 | without a document, fix-all still resolves, with empty settings |
| `CodeActionResolve.OrganizeImportsFailureGivesEmptyEdit` | packages/typescript/src/services/codeActionResolve.ts:104-105 | a failed organize-imports call still sets `edit`, to an empty change list |
| `CodeActionResolve.RefactorCommand` | packages/typescript/src/services/codeActionResolve.ts:55-66 | no edit info means no change; otherwise the command is the rename command exactly when both rename fields exist, else the previous command |
| `CodeActionResolve.ResolveIdempotent` | packages/typescript/src/services/codeActionResolve.ts:11-33 | resolving an already resolved action again yields the same fields |
| `SignatureHelp.TriggerReasonFor` | packages/typescript/src/services/signatureHelp.ts:13-31 | a trigger reason exists exactly for the invoked, trigger-character and content-change kinds; it maps back to the same kind and carries the trigger character |
| `SignatureHelp.SignatureLabel` | packages/typescript/src/services/signatureHelp.ts:46-59 | the label starts with the prefix and ends with the suffix, and with no parameters it is prefix then suffix |
| `SignatureHelp.JoinSnoc` | packages/typescript/src/services/signatureHelp.ts:53-57 | appending a label after at least one label adds one separator then that label |
| `SignatureHelp.JoinPlacesLabel` | packages/typescript/src/services/signatureHelp.ts:47-53 | each parameter label stands in the joined text at its offset |
| `SignatureHelp.JoinPlacesSeparator` | packages/typescript/src/services/signatureHelp.ts:55-57 | exactly one separator stands between two consecutive parameter labels |
| `SignatureHelp.JoinEndsWithLast` | packages/typescript/src/services/signatureHelp.ts:55-57 | the joined text ends with the last label: no separator after it |
| `SignatureHelp.ParameterLabelInSignatureLabel` | packages/typescript/src/services/signatureHelp.ts:47-54 | the label of parameter `i` stands in the signature label after the prefix and the earlier labels and separators |
| `SignatureHelp.ToSignatureInformation` | packages/typescript/src/services/signatureHelp.ts:40-61 | the loop builds the label prefix + join(parameter labels, separator) + suffix, one parameter entry per compiler parameter in order, and no documentation |
| `SignatureHelp.ProvideSignatureHelp` | packages/typescript/src/services/signatureHelp.ts:9-63 | nothing without a document or compiler items; otherwise the active signature and parameter are the compiler's selection, and the signatures match the items one to one, in order |

## Left out

- The JSON requests that only forward to the JSON language service are not modelled: completion, definition, validation, hover, links, symbols, colors, folding, selection and rule context. They are thin calls through `worker`, and `Worker` models `worker`.
- The JSON parser is opaque. A parse is a new `JsonDocument` object that records the document it came from.
- Weak-map reclamation is not modelled. The cache is an ordinary map keyed by an explicit document identity.
- The trigger-character list and the early return when the plugin gets no context are not modelled. They are constant plumbing.
- The JSON formatter, the configuration host and the formatting options are inputs. Asynchrony (`async`/`await`, `Promise.all`) is not modelled. The two settings derivations are computed one after the other.
- The prettier plugin is not part of this model. It wraps an external formatter and discovers config files through I/O.
- These compiler-service calls are oracles in `Context`: `getCombinedCodeFix`, `getEditsForRefactor`, `organizeImports`, `getSignatureHelpItems`, `getSourceFile`, `isExportAssignment` and `displayPartsToString`. `safeCall` turns an exception into `None`. Display parts arrive already rendered as strings.
- `getFormatCodeSettings`, `getUserPreferences`, `positionAt`, `offsetAt`, `uriToFileName` and `fileNameToUri` are opaque functions. The virtual-file lookup is the boolean oracle `hasVirtualFile`.
- `fileTextChangesToWorkspaceEdit` is not part of this model. An action's edit is the list of file changes it would be built from.
- `createRenameCommand` is represented by the `RenameCommand` value it is given.
- `CodeActionResolve.PatchBuiltinEditRefactoring`: the source's non-null assertions on the program and the source file are taken as holding, so `getSourceFile` is total. When `edits[0].textChanges[1]` does not exist, the source throws a type error and the resolution promise rejects. The model reports this as `completed == false` with the action unchanged.
- `CodeActionResolve.ResolveCodeAction`: a payload that is itself `undefined` makes `data.uri` throw. This case is not modelled, because every payload here is one of the four `Data` variants.
- `CodeActionResolve.IndexOf`: offsets count characters (Unicode scalar values), while JavaScript's `indexOf` counts UTF-16 code units. The two agree only on text with no characters outside the Basic Multilingual Plane. On other text the model's offset, and so the patched span start and its truthiness test, can differ from the source's.
- `CodeActionResolve.SliceDropLast`: it drops the last three characters, while `slice(0, -3)` drops three UTF-16 code units. The two agree only on file names with no characters outside the Basic Multilingual Plane.
