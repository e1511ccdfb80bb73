# Codebot files panel, modelled in Dafny

Codebot's files panel (`CodebotFilesPanel`) is the controller behind the
editor's file tree. It keeps a folder-expansion memory that survives tree
reloads. It tracks the focused item and the root of the snapshot it last
showed. It turns clicks, drops and renames into requests to the IO driver,
to the tree widget and to the signal bus.

The project has three modules:

- `FileTree` (`tree.dfy`) holds the snapshot tree `Node` (key, folder flag,
  expansion flag, children, and the backend record `{path, name}`) and the
  expansion memory, a map from node key to bool. `Restored` is the reference
  definition of the restore walk. Lemmas characterise the walk position by
  position, and prove it idempotent and the identity on an empty memory.
  `ClickThenRestore` ties a click to the next refresh.
- `Gestures` (`gestures.dfy`) holds the pure gesture rules. These are the
  drag-enter hit-mode policy and the destination path of a drop or a rename.
  The path utility `dirName` is not part of this model. It is a
  function-typed parameter, and nothing is assumed about its results.
- `Panel` (`panel.dfy`) holds the class `FilesPanel`. Its fields are the
  panel's state: `foldersState`, `focused` and `rootNode`. The field
  `effects` records, in issue order, every call the panel makes on a
  collaborator. These are widget commands, IO requests, signal dispatches
  and opening a tab. Each handler is a method whose `ensures` states the new
  state and exactly which calls it appended.

Four facts about `js/codebot.ui.filespanel.js` that the model keeps:

- No move is held back while another is in flight. Every drop and every
  changed rename issues its move request (lines 120 and 135).
- A node's `path` is never updated after a move, whether the move succeeds
  or fails. The completion callbacks only log (lines 120-125 and 135-140).
- A folder whose key is absent from the memory, or maps to false, keeps the
  expansion its snapshot gives it (lines 152-154).
- A drop beside a node goes to `dirName(dest.path)` followed by the dragged
  name. No separator is added, and `dirName` is called without a depth
  (lines 113 and 116).

## Model

| member | source | states |
|---|---|---|
| Panel.FilesPanel.constructor | js/codebot.ui.filespanel.js:24-31 | a new panel has an empty expansion memory, no focus, no root and has issued no call |
| Panel.FilesPanel.OnClick | js/codebot.ui.filespanel.js:33-46 | focus becomes the clicked item; a folder's key maps to the negation of its expansion at click time, a file leaves the memory unchanged; endEdit on the old focus is issued first iff it was editing, then the click is announced |
| Panel.FilesPanel.OnDoubleClick | js/codebot.ui.filespanel.js:48-56 | the double click is announced, then a file (never a folder) is opened in a tab |
| Gestures.DragEnterPolicy | js/codebot.ui.filespanel.js:81-86 | a folder destination allows any hit mode, a file destination restricts to exactly after and before |
| Gestures.DropOverOnlyOnFolders | js/codebot.ui.filespanel.js:81-86 | under the drag-enter policy, a hit mode is allowed iff the destination is a folder or the mode is not over |
| Gestures.DropPath | js/codebot.ui.filespanel.js:102-116 | the drop path is the dragged name preceded by the destination path and a separator (over) or by the destination's directory (before/after) |
| Gestures.SiblingDropSidesAgree | js/codebot.ui.filespanel.js:105-116 | dropping before or after the same destination gives the same path |
| Gestures.DropIntoFolderExample | js/codebot.ui.filespanel.js:105-116 | dropping /proj/a.txt over folder /proj/b gives /proj/b/a.txt |
| Panel.FilesPanel.OnDragDrop | js/codebot.ui.filespanel.js:95-126 | when no tree node is being dragged the handler fails before any call, so nothing is issued; otherwise the widget relocation is issued, then exactly one move request from the dragged node's record to the drop path; nothing else in the panel changes |
| Gestures.RenamePath | js/codebot.ui.filespanel.js:132-133 | no target iff the new name equals the current one; otherwise the target is the new name after dirName of the path with depth 3 for a folder and 1 for a file |
| Gestures.RenamePathIgnoresOldName | js/codebot.ui.filespanel.js:132-133 | once the name differs, the target does not depend on the old name |
| Panel.FilesPanel.OnRename | js/codebot.ui.filespanel.js:128-144 | an unchanged name issues nothing; a changed name issues exactly one move request to the renamed path |
| Panel.FilesPanel.RestoreFoldersStatus | js/codebot.ui.filespanel.js:146-164 | the loop-and-recursion walk returns exactly the reference walk `Restored` of the memory on the entry; a missing entry stays missing |
| FileTree.RestoredAt | js/codebot.ui.filespanel.js:146-164 | every position exists before and after the walk with the same key, kind, record and child count; its expansion becomes true iff it was true or it is reached through folders only and its key maps to true; nothing is collapsed |
| FileTree.RestoredIdempotent | js/codebot.ui.filespanel.js:146-164 | restoring twice gives the same tree as restoring once |
| FileTree.RestoredWithEmptyState | js/codebot.ui.filespanel.js:152-154 | with an empty memory the walk returns the snapshot unchanged |
| FileTree.ClickThenRestore | js/codebot.ui.filespanel.js:41-43 | after a click on a folder, the next restore expands a folder-reachable node with that key iff the snapshot had it expanded or the click opened it |
| Panel.FilesPanel.RenameFocusedNode | js/codebot.ui.filespanel.js:196-201 | startEdit is issued on the focused node if and only if there is one |
| Panel.FilesPanel.RefreshTree | js/codebot.ui.filespanel.js:203-205 | one read request is issued for the current root |
| Panel.FilesPanel.PopulateTree | js/codebot.ui.filespanel.js:207-221 | a missing or empty snapshot changes nothing; otherwise the root becomes the restored first entry, then beforeFilesPanelRefresh and then the reload of the snapshot holding that entry are issued, in that order |
| Panel.FilesPanel.OnProjectOpened | js/codebot.ui.filespanel.js:232-235 | the memory becomes empty, so a later restore leaves every snapshot unchanged |

## Left out

- Tree widget configuration (`initTree`, lines 166-194) and the `contextMenu` and `tree` getters (lines 238-239). These are widget setup and DOM access. Which handler is wired to which event is reflected only in the method names.
- `onDragStart` (lines 58-63) always allows dragging. It is a constant and has no member.
- The widget's own `moveTo`, `startEdit` and `endEdit`. They are recorded as opaque calls (`MoveTo`, `StartEdit`, `EndEdit`). Their effect on the widget is not modelled. `isEditing()` is the `focusedIsEditing` parameter of `OnClick`.
- The IO driver's `move`: only the request and its two arguments are recorded. Its completion callback only logs, so it has no member.
- The IO driver's `readDirectory`: its callback is `populateTree` (line 204), modelled as the separate entry point `PopulateTree`. The `ReadDirectory` effect records only the root.
- `CODEBOT.utils.dirName` is not part of this model. It is a parameter with no assumed behaviour, so the meaning of depth 1 versus 3 is not modelled.
- The editor tabs' `openNode` and the context menu. They are collaborators; only the `OpenNode` call is recorded.
- Listeners of `beforeFilesPanelRefresh`, which may edit the tree before the reload. They are outside the panel. The model reloads the tree as the panel left it.
- Logging through `console.log` and `console.debug`.
- Panel.FilesPanel.OnDragDrop: a drop from a draggable that is not a tree node makes the handler throw at line 100; the model records no call and keeps the state, and does not model the exception itself.
- The plugin shell `js/codebot.js` is not part of this model.
- Panel.FilesPanel.RestoreFoldersStatus: the snapshot is a value, so the in-place write to `expanded` becomes a returned tree. `PopulateTree` puts that tree in the two places the panel uses the entry, the root and the reloaded snapshot. Other references to the same objects are not modelled.
- FileTree.Marked: memory keys are a plain map. Keys that coincide with names inherited by a JavaScript object (such as `toString`) are not modelled.
