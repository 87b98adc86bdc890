# NoCodeApiBuilder front end — a Dafny model

NoCodeApiBuilder is a browser editor for API workflows. A workflow is a graph on a canvas. An
`apiStart` node receives a request, and logic, condition, loop, database, parameter, JWT and
response nodes process it. This project models, in Dafny 4.11, the parts of the front end that
decide what happens to that graph and to the state around it:

- **Undo/redo** (module `History`). A history slice holds past snapshots, the present one and
  future ones, plus the one-shot `isHistoryAction` flag.
- **The editor's handlers** (module `Editor`):
  - drag updates
  - the history-record effect
  - connecting an edge, including binding a condition or loop branch
  - duplicate, delete, copy, cut and paste
  - the node palette
  - starting a run
  - keyboard shortcuts

  Each handler returns the store actions it dispatches. The store reducers that receive them are
  outside this model.
- **Running a workflow** (module `Executor`):
  - the start request
  - the execution log the socket events update
  - the result a terminal event resolves with
  - the catch path
- **The template-reference field** (module `Suggest`). Typing `{{` opens a list of node ids;
  picking one splices in `{{<id>.result.}}`.
- **The configuration forms**:
  - the database form's record/rows conversion and row edits (`DatabaseForm`)
  - the parameter form's source and required-field edits (`ParameterForm`)
  - the node panel's population and per-type submit merge (`NodeConfig`)
- **The test panel** (module `TestPanel`): expanded lines, the status table, colours, durations
  and the JSON input.
- **The Redux slices for workflows and authentication** (`WorkflowsSlice`, `AuthSlice`, and
  `ApiErrors` for their shared error helper).
- **The create-workflow and create-secret dialogs** (`WorkflowDialog`, `SecretDialog`).
- **The sign-in and sign-up validation rules** (`AuthValidation`).

Shared modules:

- `Values`: JavaScript values. An object is a record, `seq<Entry<Value>>`, kept in creation
  order. A spread is `Put`/`PutAll`: an existing key is updated where it is, and a new key is
  appended. Enumeration (`Object.entries`) goes through `OwnEntries`, which lists the array-index
  keys first, in ascending numeric order, then the other keys in creation order (ECMAScript,
  section 10.1.11.1). Truthiness, `||` and `String(...)` are defined here too.
- `Graph`: nodes, edges and snapshots.
- `Text`: `trim`, `lastIndexOf`, `slice`, `toLowerCase` and decimal rendering.
- `Seqs`: `findIndex`, `filter` and `splice`.
- `Wrappers`: `Option`.

Library calls are parameters of the members that use them:

- `JSON.parse` is a `string -> Option<Value>` that returns `None` where the call throws.
- `JSON.stringify`, `parseInt` and zod's email check are plain function parameters.
- `Date.now()` readings are given as arguments.
- Positions from ReactFlow's coordinate conversion are given as arguments.
- The values a submitted node form holds are a `string -> Value` from field name to value,
  undefined for a field the form does not have.

Code that changes state in place is modelled as a class with `modifies` clauses. The history
store, the canvas view, the log buffer, the forms, the dialogs and the two slices are classes.
Code that computes a value is modelled as a function. The loops in the source are methods, each
proved against a function:

- the drag loop
- the paste loop
- the log index search
- the status merge
- the form population

## Model

| member | source | states |
|---|---|---|
| History.Initial | lib/redux/slices/historySlice.ts:12-17 | the initial history is a one-snapshot timeline, cursor 0, flag clear |
| History.AfterRecord | lib/redux/slices/historySlice.ts:23-35 | with the flag raised only the flag is cleared; otherwise the timeline is cut after the cursor, the payload appended and the cursor moved onto it, future empty |
| History.AfterUndo | lib/redux/slices/historySlice.ts:36-42 | with an empty past nothing changes; otherwise the timeline stays put, the cursor steps back one and the flag is raised |
| History.AfterRedo | lib/redux/slices/historySlice.ts:43-49 | with an empty future nothing changes; otherwise the timeline stays put, the cursor steps forward one and the flag is raised |
| History.SetFlag | lib/redux/slices/historySlice.ts:50-52 | only the flag changes |
| History.Determined | lib/redux/slices/historySlice.ts:5-10 | a history state is fixed by its timeline, cursor and flag |
| History.UndoThenRedo | lib/redux/slices/historySlice.ts:36-49 | an undo followed by a redo restores past, present and future exactly (flag raised) |
| History.RedoThenUndo | lib/redux/slices/historySlice.ts:36-49 | a redo followed by an undo restores past, present and future exactly (flag raised) |
| History.ReplayKeepsSize | lib/redux/slices/historySlice.ts:36-49 | undo and redo preserve the combined length of past and future |
| History.UndoNWalksBack | lib/redux/slices/historySlice.ts:36-42 | n undos walk the cursor back n places on an unchanged timeline |
| History.RedoNWalksForward | lib/redux/slices/historySlice.ts:43-49 | n redos walk the cursor forward n places on an unchanged timeline |
| History.UndoNThenRedoN | lib/redux/slices/historySlice.ts:36-49 | n undos followed by n redos return to the starting state |
| History.ReplayRecordSwallowedOnce | lib/redux/slices/historySlice.ts:27-34 | after an undo the next record is swallowed, and the one after it is recorded at the undone cursor |
| History.HistoryStore.constructor | lib/redux/slices/historySlice.ts:12-17 | the store starts in the initial state |
| History.HistoryStore.RecordHistory | lib/redux/slices/historySlice.ts:23-35 | the in-place push/assign reducer leaves the store in `AfterRecord` of its old state |
| History.HistoryStore.Undo | lib/redux/slices/historySlice.ts:36-42 | the pop/unshift reducer leaves the store in `AfterUndo` of its old state |
| History.HistoryStore.Redo | lib/redux/slices/historySlice.ts:43-49 | the push/shift reducer leaves the store in `AfterRedo` of its old state |
| History.HistoryStore.SetIsHistoryAction | lib/redux/slices/historySlice.ts:50-52 | sets the flag and nothing else |
| Editor.ApplyDragsKeepsIds | components/api-builder-content.tsx:186-196 | applying drags never adds, drops or reorders nodes |
| Editor.ApplyDragsMoves | components/api-builder-content.tsx:186-196 | with distinct ids, each node ends at its last drag position, or where it was |
| Editor.NoHitNoMove | components/api-builder-content.tsx:186-201 | changes that drag no existing node leave the nodes unchanged |
| Editor.Canvas.constructor | components/api-builder-content.tsx:125-143 | a render's view of the store |
| Editor.Canvas.OnNodesChange | components/api-builder-content.tsx:181-205 | the drag loop dispatches the moved nodes to both stores exactly when some drag hit a node, otherwise nothing |
| Editor.Canvas.RecordHistoryEffect | components/api-builder-content.tsx:246-250 | as written: records the snapshot exactly when the history flag is clear |
| Editor.Canvas.RecordHistoryEffectCorrected | components/api-builder-content.tsx:246-250 | corrected: records the snapshot on every change |
| Editor.NewEdge | components/api-builder-content.tsx:254 | the edge joins the connection's endpoints through its handles, under the id `e`, the source, `-`, the target |
| Editor.EdgeIdsCollide | components/api-builder-content.tsx:254 | the connections `a-b`→`c` and `a`→`b-c` get the same edge id |
| Editor.Canvas.OnConnect | components/api-builder-content.tsx:252-287 | adds edge `e<source>-<target>` and syncs the edge list; a third update happens exactly for a condition/loop source on its true/false handle, and it sets that branch field, drops `node` and keeps the other keys |
| Editor.BindEdgeReads | components/api-builder-content.tsx:268-276 | the bound data reads the edge id at the field, nothing at `node`, and the old value elsewhere |
| Editor.Canvas.DuplicateSelectedNode | components/api-builder-content.tsx:330-341 | nothing without a selection; otherwise one `duplicateNode` action naming the node's id, the new id `<id>-copy-<now>` and the position moved by 50 on both axes |
| Editor.Canvas.DeleteSelectedNode | components/api-builder-content.tsx:344-350 | nothing without a selection; otherwise removes the node, then its edges, then clears the selection |
| Editor.Canvas.CopySelectedNode | components/api-builder-content.tsx:353-357 | nothing without a selection; otherwise the clipboard becomes exactly that node |
| Editor.Canvas.CutSelectedNode | components/api-builder-content.tsx:360-365 | copy's actions followed by delete's |
| Editor.Canvas.DeleteSelectedEdges | components/api-builder-content.tsx:323-327 | nothing when no edges are selected, otherwise one removal carrying exactly their ids |
| Editor.EdgeIds | components/api-builder-content.tsx:325 | the ids of the edges, in order |
| Editor.Canvas.PasteNodes | components/api-builder-content.tsx:368-396 | one node add per clipboard node, in clipboard order, when there is a clipboard and a canvas, each with a stamped id at the drop position |
| Editor.PastedIdsDistinct | components/api-builder-content.tsx:381-386 | nodes with distinct ids stay distinct when pasted with the same stamp |
| Editor.PaletteNode | components/api-builder-content.tsx:399-557 | a node exists exactly for the nine registered types; it has that type, the drop position, and an id prefixed per type |
| Editor.PaletteApiStart | components/api-builder-content.tsx:419-433 | an entry node from the palette answers GET on `/api/new` |
| Editor.PaletteDatabase | components/api-builder-content.tsx:507-520 | a database node from the palette reads `users` with `findOne` from the provider `monbgo` |
| Editor.Canvas.AddNodeFromPalette | components/api-builder-content.tsx:399-557 | adds the type's node and closes the palette exactly when the canvas is mounted and the type is registered |
| Editor.Canvas.RunWorkflowActions | components/api-builder-content.tsx:569-606 | the four setup dispatches come first; without a workflow an error toast follows; with one the run is started, and the running flag is reset exactly when the run rejects |
| Editor.Shortcut | components/api-builder-content.tsx:625-684 | outside a form field, and in both directions: Delete and Backspace delete; with Ctrl or Meta, `c` copies, `x` cuts, `v` pastes, `d` duplicates, an unshifted `z` undoes, and `y` or a shifted `z` redoes; no other key, and no key without a modifier, runs anything |
| Editor.Canvas.HandleKeyDown | components/api-builder-content.tsx:625-685 | the if-chain over the key event runs exactly the handler `Shortcut` names, and prevents the default exactly for duplicate, undo and redo |
| Editor.AsWrittenFlagSticks | components/api-builder-content.tsx:246-250 | as written: once the flag is raised no snapshot is recorded and the flag stays raised |
| Editor.AsWrittenLosesEditsAfterUndo | components/api-builder-content.tsx:246-250 | as written: after any undo, no later edit reaches the history |
| Editor.CorrectedRecordsEditAfterUndo | lib/redux/slices/historySlice.ts:27-34 | corrected: after an undo the restored snapshot is swallowed once, the next edit is recorded after the cursor and the redo future is dropped |
| Executor.LogIndex | lib/workflow-executor.ts:171 | `findIndex` on the log: the first entry for the node, or -1 when there is none |
| Executor.LogBuffer.constructor | lib/workflow-executor.ts:25 | the log starts empty |
| Executor.LogBuffer.FindLogIndex | lib/workflow-executor.ts:171 | the search loop returns `LogIndex` |
| Executor.LogBuffer.UpdateLogEntry | lib/workflow-executor.ts:166-176 | merges the patch into the node's first entry in place, and does nothing when there is none |
| Executor.UpdatedLogsChangesFirstMatch | lib/workflow-executor.ts:166-176 | an update keeps the length, changes only the first entry for the node, and changes nothing without one |
| Executor.LogBuffer.Push | lib/workflow-executor.ts:158 | appends one entry |
| Executor.EntryName | lib/workflow-executor.ts:61-63 | the server's node name, or `Node <id>` |
| Executor.NodePatch | lib/workflow-executor.ts:58-106 | started, completed and failed events write status running, completed and error, with the output or the error they carry, and the handler's clock reading |
| Executor.ApplyEventsKeepsIds | lib/workflow-executor.ts:166-176 | as written: node events rewrite entries in place, so the log keeps its node ids in order |
| Executor.EventsNeverGrowLogs | lib/workflow-executor.ts:166-176 | as written: node events applied to the log, which starts empty at line 25, leave it empty |
| Executor.TerminalResult | lib/workflow-executor.ts:112-139 | completion succeeds with its output, or the start response when that is falsy; failure fails with a null response and the event's error; both carry the log and the execution id |
| Executor.SystemFailure | lib/workflow-executor.ts:148-161 | the catch path appends one system error entry and fails without a response |
| Executor.ExecutionIdOf | lib/workflow-executor.ts:45-46 | an object response that holds `executionId` yields exactly the value read under that key; a response without one yields undefined, and any defined result is an entry of the response |
| Executor.JoinListens | lib/workflow-executor.ts:51-126 | the join listens for the seven run events and drops none |
| Executor.TeardownDrops | lib/workflow-executor.ts:179-187 | the teardown drops the seven run events and listens for none |
| Executor.TeardownUndoesJoin | lib/workflow-executor.ts:179-187 | the teardown leaves the room the join entered and drops exactly the listeners the join added |
| Executor.RequestFor | lib/workflow-executor.ts:35-38 | the request carries the workflow and the test input, or `{}` when the input is falsy |
| Executor.ExecuteWorkflow | lib/workflow-executor.ts:19-188 | a missing workflow, a rejected start, and a socket with a null or undefined start response (the `TypeError` of reading `executionId`) take the catch path; no socket or no execution id resolves with the start response; otherwise joins the room and adds the seven listeners, folds the events up to the first terminal one, tears down and resolves; without a terminal event the run stays pending |
| Executor.SocketRunLogsAreEmpty | lib/workflow-executor.ts:166-176 | as written: every socket run resolves with an empty log |
| Executor.LogIds | lib/workflow-executor.ts:166-176 | the node ids of the log, in order |
| Executor.UpsertStep | lib/workflow-executor.ts:166-176 | corrected: one upsert keeps the node ids distinct, keeps every id, adds the patched one, and gives it the patch's status |
| Executor.UpsertEventsDistinct | lib/workflow-executor.ts:58-106 | corrected: the log holds at most one entry per node |
| Executor.UpsertEventsCover | lib/workflow-executor.ts:58-106 | corrected: every node that reported an event has an entry |
| Executor.UpsertEventsLastStatus | lib/workflow-executor.ts:58-106 | corrected: the node of the last event carries that event's status |
| Executor.CorrectedCompletedRun | lib/workflow-executor.ts:58-124 | corrected: a node that starts and completes ends with one completed entry holding its output and completion time, and the run succeeds with the terminal output |
| Suggest.Detect | components/ui/node-id-suggest-field.tsx:72-96 | suggesting exactly when the text before the caret has a `{{` with no `}}` after its last occurrence; then the bracket is that last `{{`, the search starts 2 later and is the rest of the text before the caret |
| Suggest.DetectRightAfterOpen | components/ui/node-id-suggest-field.tsx:72-96 | a caret right after a fresh `{{` opens the list with an empty search |
| Suggest.MatchesIgnoresCase | components/ui/node-id-suggest-field.tsx:99-104 | the search ignores letter case, in the search and in the node id alike |
| Suggest.LabelOf | components/ui/node-id-suggest-field.tsx:107 | `<id> (<label or type or Unknown>)` |
| Suggest.Suggestions | components/ui/node-id-suggest-field.tsx:99-108 | never more entries than nodes, and every matching node's entry is listed |
| Suggest.SuggestionSource | components/ui/node-id-suggest-field.tsx:99-108 | each entry's position names a matching node whose entry it is |
| Suggest.SuggestionsSound | components/ui/node-id-suggest-field.tsx:99-108 | every entry is the entry of a matching node |
| Suggest.SuggestionsAppend | components/ui/node-id-suggest-field.tsx:99-108 | the list keeps canvas order |
| Suggest.EmptySearchListsAll | components/ui/node-id-suggest-field.tsx:102 | an empty search lists every node, in order |
| Suggest.Splice | components/ui/node-id-suggest-field.tsx:143-147 | the text before the new caret is the text before the bracket plus `{{<id>.result.`; after it is `}}` plus the text after the old caret |
| Suggest.SuggestField.constructor | components/ui/node-id-suggest-field.tsx:32-42 | list hidden, no bracket, empty search |
| Suggest.SuggestField.HandleChange | components/ui/node-id-suggest-field.tsx:57-126 | hands the text on first, then opens the list at `Detect`'s bracket with the filtered nodes, or hides it, keeping the old search |
| Suggest.SuggestField.HandleNodeSelect | components/ui/node-id-suggest-field.tsx:128-164 | nothing without a bracket or a mounted input; otherwise emits the splice, closes the list and moves the caret |
| Suggest.SuggestField.HandleKeyDown | components/ui/node-id-suggest-field.tsx:166-171 | Escape on an open list closes it and forgets the bracket; anything else changes nothing |
| DatabaseForm.RecordToRows | components/config-forms/DatabaseForm.tsx:112-115 | one row per entry, each entry's key with its value as `String(...)`, listed in own-key order (array-index keys first, ascending), with the rows under the other keys in the record's creation order |
| DatabaseForm.RecordToRowsInOrder | components/config-forms/DatabaseForm.tsx:112-115 | a record already in own-key order is shown in its own order |
| DatabaseForm.NamedEntries | components/config-forms/DatabaseForm.tsx:142-144 | only rows with a key become entries, with string values |
| DatabaseForm.NamedEntriesOfNamed | components/config-forms/DatabaseForm.tsx:142-144 | with every key set, each row becomes exactly one entry |
| DatabaseForm.RowsToRecordKeys | components/config-forms/DatabaseForm.tsx:142-144 | the record has a key exactly when some row has that non-empty key |
| DatabaseForm.RowsToRecordLastWins | components/config-forms/DatabaseForm.tsx:142-144 | a repeated key takes the value of its last row |
| DatabaseForm.RowsRoundTrip | components/config-forms/DatabaseForm.tsx:112-144 | rows with distinct non-empty keys come back from rows→record→rows unchanged exactly when they are in own-key order |
| DatabaseForm.RowsReordered | components/config-forms/DatabaseForm.tsx:112-144 | the rows `b`, `1` come back as `1`, `b` |
| DatabaseForm.RecordRoundTrip | components/config-forms/DatabaseForm.tsx:112-144 | a record of named string entries comes back from record→rows→record as its own-key listing: every key reads the same, and the record itself comes back exactly when it was in own-key order |
| DatabaseForm.DatabaseFields.constructor | components/config-forms/DatabaseForm.tsx:105-133 | both lists start as the rows of their records |
| DatabaseForm.DatabaseFields.AddField | components/config-forms/DatabaseForm.tsx:160-166 | appends an empty row to the chosen list only |
| DatabaseForm.DatabaseFields.RemoveField | components/config-forms/DatabaseForm.tsx:168-174 | drops the row at the index from the chosen list only; an index out of range removes nothing |
| DatabaseForm.DatabaseFields.UpdateField | components/config-forms/DatabaseForm.tsx:176-191 | sets the key or value of one row of the chosen list, and nothing else |
| ParameterForm.ParameterFields.constructor | components/config-forms/ParameterForm.tsx:33 | the form's sources |
| ParameterForm.ParameterFields.RemoveSource | components/config-forms/ParameterForm.tsx:52-56 | splices out the source at the index |
| ParameterForm.ParameterFields.AddSource | components/config-forms/ParameterForm.tsx:166-168 | appends a query source |
| ParameterForm.ParameterFields.EditRequired | components/config-forms/ParameterForm.tsx:101-106 | replaces one required name of one source |
| ParameterForm.ParameterFields.RemoveRequired | components/config-forms/ParameterForm.tsx:114-119 | splices one required name out of one source |
| ParameterForm.ParameterFields.AddRequired | components/config-forms/ParameterForm.tsx:131-133 | appends an empty required name, an unlisted list counting as empty |
| NodeConfig.DefinedEntriesKeeps | components/node-config-panel-new.tsx:213-218 | keeps exactly the entries whose value is defined |
| NodeConfig.DefinedEntriesDistinct | components/node-config-panel-new.tsx:213-218 | filtering keeps the keys distinct |
| NodeConfig.DefinedEntriesGet | components/node-config-panel-new.tsx:213-218 | a key reads as before unless its value was undefined, in which case it is absent |
| NodeConfig.DefinedReads | components/node-config-panel-new.tsx:213-218 | the cleaned object holds the defined entries in `Object.entries` order; a key reads as before unless its value was undefined, in which case it is absent |
| NodeConfig.KindOf | components/node-config-panel-new.tsx:143-254 | each of the nine type names, and only it, selects its kind |
| NodeConfig.Overlay | components/node-config-panel-new.tsx:143-254 | fields are written exactly for the nine known types, and for a JWT generator only when its payload parses; apiStart writes only method and path |
| NodeConfig.OverlayKeys | components/node-config-panel-new.tsx:143-254 | every overlay names each key once |
| NodeConfig.DatabaseOverlayKeys | components/node-config-panel-new.tsx:208-232 | a database submit names the id, the connection fields and the cleaned query and data, each once |
| NodeConfig.OverlayRestores | components/node-config-panel-new.tsx:143-254 | for a form showing what the population set, with every edited field truthy, the overlay writes back each non-id key as the node's data holds it, and the id exactly for every type but apiStart |
| NodeConfig.OverlayWritesId | components/node-config-panel-new.tsx:143-254 | every type but apiStart writes the node's `id` |
| NodeConfig.SubmitOverlays | components/node-config-panel-new.tsx:149-156 | after a submit, a named field reads its submitted value and every other key reads as in the panel's data |
| NodeConfig.ResponseStatusParsed | components/node-config-panel-new.tsx:188-197 | a response node stores `parseInt` of the status, and the node id |
| NodeConfig.JwtGenerateFields | components/node-config-panel-new.tsx:144-158 | a JWT generator's `type` becomes the secret type, with the expiry and the parsed payload |
| NodeConfig.JwtVerifyFields | components/node-config-panel-new.tsx:159-168 | for any form, a JWT verifier's submit succeeds, its `type` becomes the secret type and its `id` the node id |
| NodeConfig.Population | components/node-config-panel-new.tsx:41-110 | the type first when there is one, and nothing at all without a type; what the type's fields hold is stated by `NodeConfig.UneditedSubmit`, `NodeConfig.PopulatedValues` and `NodeConfig.ApiStartDefaults` |
| NodeConfig.DatabaseNodeFields | components/node-config-panel-new.tsx:87-104 | a database node shows provider, collection, operation, query and data, in that order |
| NodeConfig.KindFieldsKeys | components/node-config-panel-new.tsx:41-110 | each type's fields name every key once, and never `type` |
| NodeConfig.PopulationDistinct | components/node-config-panel-new.tsx:41-110 | the population sets each field once |
| NodeConfig.PopulatedValues | components/node-config-panel-new.tsx:41-110 | after the population every field it set reads as set |
| NodeConfig.UneditedSubmit | components/node-config-panel-new.tsx:41-254 | populating a non-database node whose edited fields are truthy and submitting the form unedited gives back the node's data, except that every type but apiStart writes the node id |
| NodeConfig.ApiStartDefaults | components/node-config-panel-new.tsx:81-86 | an entry node without method or path shows GET and an empty path |
| NodeConfig.ConfigPanel.constructor | components/node-config-panel-new.tsx:35 | the panel's data starts as the node's |
| NodeConfig.ConfigPanel.Populate | components/node-config-panel-new.tsx:41-110 | the `setValue` calls leave the form as the population's fields spread over it |
| NodeConfig.ConfigPanel.SyncFormData | components/node-config-panel-new.tsx:139-141 | the node's data replaces the panel's copy |
| NodeConfig.ConfigPanel.HandleSubmit | components/node-config-panel-new.tsx:143-254 | a form the schema rejects dispatches nothing; an accepted one keeps and dispatches the merged data for a known type, and otherwise changes and dispatches nothing |
| TestPanel.ToggleLogExpansion | components/test-panel.tsx:101-111 | the id flips membership and every other id stays |
| TestPanel.ToggleTwice | components/test-panel.tsx:101-111 | toggling twice is the identity |
| TestPanel.MergeStatuses | components/test-panel.tsx:80-96 | the two loops build the pending lines overridden by the log |
| TestPanel.ByIdKeys | components/test-panel.tsx:83-91 | a table keyed by node id holds exactly the nodes' ids |
| TestPanel.ByIdAt | components/test-panel.tsx:83-91 | with distinct ids, each node's id holds that node's entry |
| TestPanel.PendingStatusesKeys | components/test-panel.tsx:83-91 | the pending table holds exactly the canvas ids |
| TestPanel.PendingStatusAt | components/test-panel.tsx:83-91 | with distinct ids, each node's line is pending, named by its label or else its id, typed by its type or else `unknown` |
| TestPanel.LastLog | components/test-panel.tsx:94-96 | an entry of the log for that node, or none exactly when it has no entry |
| TestPanel.LastLogIsLast | components/test-panel.tsx:94-96 | the entry found is the node's last one: no later entry has its id |
| TestPanel.OverriddenReads | components/test-panel.tsx:94-96 | a node's last log entry wins over its pending line; ids without either are absent |
| TestPanel.StatusColor | components/test-panel.tsx:142-153 | completed green, running blue, error red, otherwise grey |
| TestPanel.StatusColorsDistinct | components/test-panel.tsx:142-153 | no two statuses share a colour |
| TestPanel.FormatDuration | components/test-panel.tsx:163-166 | empty exactly for a missing or zero duration, otherwise the number followed by `ms` |
| TestPanel.FormatDurationReadsBack | components/test-panel.tsx:163-166 | a positive duration's text reads back as the same number |
| TestPanel.Panel.constructor | components/test-panel.tsx:48-53 | nothing expanded, the default body input, valid |
| TestPanel.Panel.ToggleLog | components/test-panel.tsx:101-111 | only the expanded set changes, by the toggle |
| TestPanel.Panel.SyncRequestData | components/test-panel.tsx:73-77 | truthy request data replaces the input text with its JSON |
| TestPanel.Panel.HandleTestInputChange | components/test-panel.tsx:168-177 | keeps the text; valid exactly when it parses; dispatches exactly the parsed value |
| TestPanel.Panel.HandleRunWorkflow | components/test-panel.tsx:179-188 | runs with the parsed input exactly when the input parses |
| ApiErrors.HandleApiError | lib/redux/slices/workflowsSlice.ts:30-43 | body `error`, else body `message`, else the error's message, else the fallback; never falsy |
| ApiErrors.ErrorFieldFirst | lib/redux/slices/authSlice.ts:57-70 | a truthy body `error` wins whatever else is present |
| ApiErrors.NoBodyUsesMessage | lib/redux/slices/authSlice.ts:57-70 | without a response body the error's own message, or the fallback when it is empty |
| WorkflowsSlice.ReplaceById | lib/redux/slices/workflowsSlice.ts:155-163 | same length; unchanged without a match; otherwise exactly the first match replaced |
| WorkflowsSlice.ReplaceByIdTwice | lib/redux/slices/workflowsSlice.ts:186-194 | replacing by the same response twice equals once |
| WorkflowsSlice.DeleteById | lib/redux/slices/workflowsSlice.ts:172-177 | no survivor has the id, every workflow with another id survives |
| WorkflowsSlice.DeleteByIdAppend | lib/redux/slices/workflowsSlice.ts:172-177 | deleting keeps the relative order of the rest |
| WorkflowsSlice.DeleteByIdTwice | lib/redux/slices/workflowsSlice.ts:172-177 | deleting twice equals once |
| WorkflowsSlice.DeleteAbsentId | lib/redux/slices/workflowsSlice.ts:172-177 | deleting an absent id changes nothing |
| WorkflowsSlice.WorkflowsStore.constructor | lib/redux/slices/workflowsSlice.ts:20-28 | empty list, no error, nothing busy |
| WorkflowsSlice.WorkflowsStore.SetBusy | lib/redux/slices/workflowsSlice.ts:127-198 | sets one request's flag, leaving the other four |
| WorkflowsSlice.WorkflowsStore.ClearError | lib/redux/slices/workflowsSlice.ts:118-120 | nulls the error only |
| WorkflowsSlice.WorkflowsStore.ClearWorkflows | lib/redux/slices/workflowsSlice.ts:121-123 | empties the list only |
| WorkflowsSlice.WorkflowsStore.Pending | lib/redux/slices/workflowsSlice.ts:127-185 | raises the request's own flag and clears the error |
| WorkflowsSlice.WorkflowsStore.Rejected | lib/redux/slices/workflowsSlice.ts:135-198 | lowers the request's flag and stores the message, keeping the list |
| WorkflowsSlice.WorkflowsStore.FetchFulfilled | lib/redux/slices/workflowsSlice.ts:131-134 | the list becomes the response |
| WorkflowsSlice.WorkflowsStore.CreateFulfilled | lib/redux/slices/workflowsSlice.ts:143-146 | the new workflow is appended |
| WorkflowsSlice.WorkflowsStore.ReplaceFulfilled | lib/redux/slices/workflowsSlice.ts:155-194 | the workflow with the response's id is replaced in place |
| WorkflowsSlice.WorkflowsStore.DeleteFulfilled | lib/redux/slices/workflowsSlice.ts:172-177 | the workflows with the id are dropped |
| AuthSlice.ToSignUpRequest | lib/redux/slices/authSlice.ts:96-101 | `fullName` becomes `full_name`; name, email and password pass through |
| AuthSlice.SignUpRoundTrip | lib/redux/slices/authSlice.ts:96-101 | the mapping and its inverse are mutually inverse |
| AuthSlice.AuthStore.constructor | lib/redux/slices/authSlice.ts:48-54 | no user, no token, not loading, no error, not authenticated |
| AuthSlice.AuthStore.Logout | lib/redux/slices/authSlice.ts:113-117 | forgets user, token and error, deauthenticates, keeps the loading flag |
| AuthSlice.AuthStore.ClearError | lib/redux/slices/authSlice.ts:124-126 | nulls the error only |
| AuthSlice.AuthStore.SetCredentials | lib/redux/slices/authSlice.ts:127-130 | stores the user and token and authenticates |
| AuthSlice.AuthStore.Pending | lib/redux/slices/authSlice.ts:141-164 | loading, no error, user and token kept |
| AuthSlice.AuthStore.Fulfilled | lib/redux/slices/authSlice.ts:145-169 | not loading, the response's user and token, authenticated |
| AuthSlice.AuthStore.Rejected | lib/redux/slices/authSlice.ts:156-179 | not loading, the message stored, user and token kept |
| WorkflowDialog.Submission | components/project-dialogs/create-workflow-dialog.tsx:51-98 | nothing is sent exactly when the name or path is blank; otherwise the trimmed name, description and path, the chosen method, and the starter graph |
| WorkflowDialog.SubmissionIgnoresPadding | components/project-dialogs/create-workflow-dialog.tsx:90-93 | the name and path sent have no surrounding whitespace |
| WorkflowDialog.EntryNodeCarriesInputs | components/project-dialogs/create-workflow-dialog.tsx:59-70 | the entry node holds the chosen method and `/` + the untrimmed path |
| WorkflowDialog.DefaultGraphWellFormed | components/project-dialogs/create-workflow-dialog.tsx:59-83 | the starter nodes have distinct ids and the edge joins two of them |
| WorkflowDialog.Dialog.constructor | components/project-dialogs/create-workflow-dialog.tsx:41-45 | closed, empty fields, method GET |
| WorkflowDialog.Dialog.Reset | components/project-dialogs/create-workflow-dialog.tsx:103-107 | closes the dialog, empties the fields and sets the method back to GET |
| WorkflowDialog.Dialog.HandleSubmit | components/project-dialogs/create-workflow-dialog.tsx:48-114 | invalid input toasts and sends nothing; success resets the fields and closes; failure toasts the message and keeps the fields |
| SecretDialog.Submission | components/project-dialogs/create-secret-dialog.tsx:49-74 | a blank field of the chosen provider gives that provider's error; otherwise the body is exactly that field, trimmed |
| SecretDialog.OtherFieldIgnored | components/project-dialogs/create-secret-dialog.tsx:49-74 | the other provider's field affects neither the check nor the body |
| SecretDialog.Dialog.constructor | components/project-dialogs/create-secret-dialog.tsx:40-43 | closed, mongodb, empty fields |
| SecretDialog.Dialog.HandleSubmit | components/project-dialogs/create-secret-dialog.tsx:46-92 | invalid input toasts its error and sends nothing; success resets everything; failure toasts the message and keeps the fields |
| AuthValidation.Rule | lib/validations/auth.ts:3-14 | no issue exactly when the rule holds, otherwise one issue at its field |
| AuthValidation.SignInIssues | lib/validations/auth.ts:3-6 | valid exactly for an email-format email and a password of at least 6 characters |
| AuthValidation.SignUpIssues | lib/validations/auth.ts:8-19 | valid exactly when both names have 2 characters, both emails are email-format and equal, and the password has 6; differing emails put a mismatch issue at `confirmEmail` last |
| AuthValidation.MismatchReported | lib/validations/auth.ts:16-19 | differing emails are always reported |
| AuthValidation.SignUpImpliesSignIn | lib/validations/auth.ts:3-19 | a valid sign-up form's email and password pass sign-in |
| Text.Trim | components/project-dialogs/create-workflow-dialog.tsx:51 | `trim` removes exactly the surrounding whitespace |
| Text.TrimEmptyIffBlank | components/project-dialogs/create-workflow-dialog.tsx:51 | a field trims to "" exactly when it is all whitespace |
| Text.ToLower | components/ui/node-id-suggest-field.tsx:103 | the same length, each ASCII capital lowered and every other character kept |
| Text.ToLowerTwice | components/ui/node-id-suggest-field.tsx:103 | lowering twice is lowering once |
| Text.Slice | components/ui/node-id-suggest-field.tsx:72 | both bounds clamped to the length; within bounds, exactly the substring |
| Text.SliceSplit | components/ui/node-id-suggest-field.tsx:143-144 | the slices before and after any point join back to the text |
| Text.IntToStringReadsBack | components/node-config-panel-new.tsx:74 | an integer's decimal rendering reads back as that integer |
| Text.IntToStringInjective | components/node-config-panel-new.tsx:74 | different integers render differently |
| Text.NatToStringIsIndex | components/config-forms/DatabaseForm.tsx:112-115 | `String(n)` is an array-index key exactly when n is below 2^32 - 1, and then denotes n |
| Text.LastIndexOf | components/ui/node-id-suggest-field.tsx:73 | the last occurrence of the pattern, or -1 exactly when there is none |
| Values.PutGet | components/api-builder-content.tsx:268-276 | after spreading one key, it reads its new value and every other key reads as before |
| Values.PutKeys | components/api-builder-content.tsx:268-276 | a spread keeps the key order and appends a new key at the end |
| Values.PutAllGet | components/node-config-panel-new.tsx:149-156 | after a spread, a key of the spread reads its value there; any other key reads as before |
| Values.PutAllAbsent | components/node-config-panel-new.tsx:149-156 | a spread that does not name a key leaves it as it was, even with repeated keys |
| Values.PutAllDistinct | components/node-config-panel-new.tsx:149-156 | a spread keeps the keys distinct |
| Values.FalsyValues | components/node-config-panel-new.tsx:60-108 | exactly `undefined`, `null`, `false`, `0` and `""` are falsy |
| Values.Or | components/node-config-panel-new.tsx:60-108 | JavaScript's OR of `a` and `b` is `a` when it is truthy, and `b` otherwise |
| Values.OrTruthy | components/node-config-panel-new.tsx:60-108 | the OR of `a` and `b` is truthy exactly when one of them is, and OR groups either way |
| Values.StringifyReadsBack | components/node-config-panel-new.tsx:74 | `toString` keeps a string and renders a number in decimal that reads back as the number |
| Values.OwnEntries | components/config-forms/DatabaseForm.tsx:112-115 | `Object.entries` lists a permutation of the record's entries |
| Values.OwnEntriesOrder | components/config-forms/DatabaseForm.tsx:112-115 | the listing's keys are in own-key order, and the non-index entries keep their creation order |
| Values.OwnEntriesGet | components/config-forms/DatabaseForm.tsx:112-115 | every key reads in the listing as in the record |
| Values.OwnEntriesInOrder | components/config-forms/DatabaseForm.tsx:112-115 | a record already in own-key order is listed as it is |
| Values.OwnEntriesDistinct | components/config-forms/DatabaseForm.tsx:112-115 | distinct keys stay distinct in the listing |
| Values.IndexKeyFirst | components/config-forms/DatabaseForm.tsx:112-115 | a name key created before an index key is listed after it |
| Seqs.FirstIndex | lib/redux/slices/workflowsSlice.ts:157-159 | -1 exactly when nothing matches; otherwise a match with none before it |
| Seqs.Filter | lib/redux/slices/workflowsSlice.ts:174-176 | no longer than the input; every survivor comes from the input and passes the test |
| Seqs.FilterKeeps | lib/redux/slices/workflowsSlice.ts:174-176 | every element that passes survives |
| Seqs.FilterAppend | lib/redux/slices/workflowsSlice.ts:174-176 | filtering distributes over concatenation, so survivors keep their order |
| Seqs.RemoveAt | components/config-forms/ParameterForm.tsx:52-56 | `splice(i, 1)` on a copy: the element at `i` goes and the rest close up in order; an index past the end removes nothing |
| Seqs.RemoveAtMultiset | components/config-forms/ParameterForm.tsx:52-56 | exactly one occurrence of the element at `i` goes |

## Left out

- Socket.io transport, `window.dispatchEvent` and the Promise wrapper are left out. The events a run receives are the input sequence `events`. The socket calls the run makes are returned as `calls`. Timing and interleaving between events are not modelled.
- HTTP requests and the axios layer are left out. A request's result is a parameter: the start response or its error message, and the `failure` message of a create.
- `localStorage` and cookie writes in the auth slice are left out, because they are browser I/O. Only the reducer state is modelled.
- The reducers of the nodes, edges, ui, execution and workflow-editor slices are not part of this model. The editor's handlers return the actions they dispatch, and the effect of those actions is not modelled.
- Timing code is left out because it depends on the render loop:
  - the debounced `updateNodeData` (components/api-builder-content.tsx:307-320)
  - every `setTimeout`, including the caret placement after a suggestion is picked
  - the `isUpdatingFrom*` ref flags and effect ordering of the database form (components/config-forms/DatabaseForm.tsx:105-158)
- The click handlers (components/api-builder-content.tsx:289-305) are left out. Each only dispatches a selection.
- The data-sync effect (components/api-builder-content.tsx:239-243) is left out. It only forwards data.
- `Editor.Canvas.OnNodesChange`: after the drag loop, the handler passes every change, drag or not, on to ReactFlow's own `onNodesChangeInternal` (components/api-builder-content.tsx:203). What that handler does to ReactFlow's internal node list is not modelled.
- Rendering is left out: JSX, icons, `getStatusIcon` and `formatTime` (which calls `toLocaleTimeString`).
- `Editor.Canvas.RunWorkflowActions`: the run callback's stale closure over `currentWorkflow` is not modelled. The view passed in is the one the callback sees.
- `Editor.Canvas.HandleKeyDown`: browsers report Shift+Z as key "Z". The model compares against the key strings as the source writes them, so it does not cover that case.
- `Editor.PaletteNode`: does not state the keys of each type's initial data. Stating them over the nine literal records at once exhausts the solver, so only type, position and id prefix are stated. The data is defined in `PaletteData`; `Editor.PaletteApiStart` and `Editor.PaletteDatabase` state two of the nine records.
- Numbers are integers. NaN, fractions and `parseInt`'s partial parses are not modelled. `parseInt` is a `string -> Value` parameter. `Truthy` treats only 0 as a falsy number.
- Positions are `real`. ReactFlow's coordinate conversion is replaced by a given position.
- `toLowerCase` is modelled for ASCII letters only.
- `JSON.parse`, `JSON.stringify` and zod's email check are parameters.
- zod's `min` counts characters of the `seq<char>`, not UTF-16 code units.
- `Suggest.Detect`, `Suggest.Splice` and `Suggest.SuggestField.HandleChange`: the caret (`selectionStart`) and the `slice` positions are indices into the `seq<char>`. The browser counts them in UTF-16 code units, so the two disagree on text holding characters outside the Basic Multilingual Plane.
- `NodeConfig.ConfigPanel.HandleSubmit`: the form reaches the callback only through `methods.handleSubmit` with the zod resolver of `nodeConfigSchema` (components/node-config-panel-new.tsx:279). That schema is not part of this model. Its verdict is the parameter `valid`, and a rejected form dispatches nothing.
- `NodeConfig.UneditedSubmit`: states what the callback gives back, and so assumes the schema accepts the populated form.
- `DatabaseForm.DatabaseFields.UpdateField`: requires an index within the list. In the source, an index past the end writes a sparse array element, and that case is not modelled.
- `ParameterForm.ParameterFields.RemoveSource`, `ParameterForm.ParameterFields.EditRequired`, `ParameterForm.ParameterFields.RemoveRequired` and `ParameterForm.ParameterFields.AddRequired`: require indices within the lists. The form only calls them from rows it renders, so an out-of-range index never arises there.
- `NodeConfig.Defined`: a truthy non-object `query` or `data` value is read as empty. JavaScript would take that value's own entries.
- `TestPanel.MergeStatuses`: the source computes the table and then discards it, because the `setNodeStatuses` call is commented out. The model computes the table it would set. The single `now` stands for each node's own `Date.now()` reading.
- JSON.stringify's own key walk is inside the `stringify` parameter. The model passes it the record in creation order, as the object holds it.
- `NodeConfig.UneditedSubmit`: does not cover database nodes. Their submit cleans `query` and `data` (components/node-config-panel-new.tsx:213-218), so an unedited database form does not give back data holding undefined entries, and entries under array-index keys come back reordered.
- `Executor.ExecuteWorkflow`: the message of the `TypeError` thrown by reading `executionId` off a null or undefined start response is the parameter `typeErrorMessage`. The socket listeners are modelled by the events they handle; the socket calls are `Emit`, `On` and `Off` records.
- `Executor.ExecuteWorkflow`: models the log update as written. The corrected upsert is stated separately, by the `Upsert*` lemmas and `Executor.CorrectedCompletedRun`.

## Findings

| source | as written | input that shows it | evidently intended | confidence | as-written member | corrected member |
|---|---|---|---|---|---|---|
| lib/workflow-executor.ts:166-176 | `updateLogEntry` only merges into an existing entry, and the log starts empty (line 25). No handler ever creates an entry, so every socket run resolves with `logs: []`. | events `node:started(n)`, `node:completed(n)`, `execution:completed(out)` resolve with an empty log | a node's first event creates its entry, and later events update it | not executed | Executor.SocketRunLogsAreEmpty | Executor.CorrectedCompletedRun |
| components/api-builder-content.tsx:246-250 | the effect dispatches `recordHistory` only while `isHistoryAction` is false. Only the `recordHistory` reducer clears the flag, so after the first undo or redo the flag stays raised and no later edit is recorded. | undo once, then move a node: the move never enters the history | dispatch on every change, and let the reducer swallow the one snapshot an undo or redo causes | not executed | Editor.AsWrittenLosesEditsAfterUndo | Editor.CorrectedRecordsEditAfterUndo |
