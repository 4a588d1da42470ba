# Shape editor document and history model

A Dafny model of the state machine at the heart of a browser shape editor (`src/App.jsx`).
The editor keeps a list of shapes (circles, rectangles, triangles, stars), each with an id, a
position on an 800x600 canvas and style props (colour, size, rotation, opacity), plus a linear
undo log of snapshots with a cursor. Handlers add, restyle, drag, duplicate and delete shapes,
and commit snapshots to the log; keyboard shortcuts with Ctrl or Cmd drive undo, redo,
duplicate, delete and export.

Files, one module each:

- `wrappers.dfy` (`Wrappers`): `Option`, for nullable values.
- `document.dfy` (`Document`): the shape, props and patch datatypes, and the pure list transforms
  the handlers use. `Find` is `find`, `Replace`/`UpdateProps`/`MoveTo` are `map`, `Remove` is
  `filter`. Lemmas cover uniqueness of ids and the order of the list.
- `drag.dfy` (`Drag`): grid snapping, clamping to the canvas, the size a drag falls back to,
  the centred placement of a new shape, and the pointer offset captured on press.
- `history.dfy` (`History`): `Commit`, the slice-and-push that `addToHistory` performs.
- `keyboard.dfy` (`Keyboard`): the Ctrl/Cmd shortcut table and its properties.
- `editor.dfy` (`App`): class `Editor`. Its fields are `shapes`, `history`, `step`, `selected`,
  `dragging`, `offset`, `pending`, `snap` and the id counter `nextId`. It has one method per
  handler. Each method's `modifies` clause names exactly the fields the handler
  sets. `Valid()` says the cursor is inside the log, and that the live list and every snapshot
  hold unique ids already issued by the counter.
- `scenarios.dfy` (`Scenarios`): clients that chain handlers. They show undo-then-redo
  restoring the document, and a commit after any number of undos leaving nothing to redo. Two more clients
  show a default circle dragged to canvas point (750, 550) stopping at (700, 500) with three log
  entries, and a rectangle added, undone and redone returning with the same id and style.

Modelling choices:

- Positions are `real`, because `addShape` places a shape at `400 - size/2`. `Math.round(v/20)*20`
  is written `Floor(v/20 + 1/2)*20`, which is JavaScript's round-half-up.
- Ids come from the clock in the application (`Date.now()`). Here `Editor.FreshId` hands out a
  counter instead, and "every issued id is positive and below the counter" is part of `Valid()`.
  That is the uniqueness assumption the application makes about the clock. Positivity matters
  because the handlers test the selection with `if (selectedShapeId)` (src/App.jsx:86, 226,
  247), which an id of 0 would fail. With positive ids, that test is `selected.Some?`.
- History snapshots are deep copies made by a JSON round trip in the application. Dafny values
  have no aliasing, so a snapshot is the list value itself.
- The canvas's screen origin (`rect.left`, `rect.top`) and the pointer's `clientX`/`clientY` are
  plain `Position` parameters of the mouse handlers.
- The properties panel exists only while a shape is selected. Each of its inputs replaces one
  field of the pending style and passes the whole pending style to `updateShape`. That is
  `Editor.EditProperty`, which requires a selection.

Where the code keeps weaker guarantees than an editor of this kind would be expected to give,
the model follows the code. The one exception is the press offset, which is a bug (see
"## Findings"); there the editor uses the corrected offset.

- One might expect snapped positions to be multiples of 20 after a drag. The code clamps after
  snapping, so a shape whose size is not a multiple of 20 can stop off the grid at the far edge.
  `Drag.ClampedSnapLeavesGrid` shows it: size 110 stops at 690. `Drag.SnappedAxisOnGrid` shows
  the grid is kept when the clamp bound is a grid line.
- One might expect the selection always to name an existing shape. The code does not clear it on
  undo or redo, so after an undo it can name a shape that is gone. Delete then filters nothing
  but still commits, and duplicate does nothing. `Valid()` therefore says nothing about
  `selected`.
- Style edits are merged into the live shape without a commit. They reach the log only with the
  next commit. `Scenarios.UndoThenRedoDropsUncommitted` shows that an undo and redo over such edits
  brings back the committed snapshot.

## Model

| member | source | states |
|---|---|---|
| `Document.Merge` | src/App.jsx:65 | each field of the merged props is the patch's when the patch carries it, and the old one otherwise |
| `Document.MergeWhole` | src/App.jsx:511-517 | a patch carrying every field replaces the props outright; this is the panel's full pending object |
| `Document.MergeEmpty` | src/App.jsx:65 | a patch with no field leaves the props unchanged |
| `Document.MergeIdempotent` | src/App.jsx:65 | merging the same patch twice equals merging it once |
| `Document.Find` | src/App.jsx:76 | a found shape is in the list and carries the id; nothing is found exactly when no shape carries the id |
| `Document.FindFirst` | src/App.jsx:76 | the lookup returns the first shape that carries the id |
| `Document.FindUnique` | src/App.jsx:98 | with unique ids, looking up a present id returns that very shape |
| `Document.Replace` | src/App.jsx:105-109 | the mapped list has the same length; shapes with another id are unchanged and shapes with the id are transformed |
| `Document.UpdateProps` | src/App.jsx:62-69 | ids, kinds, positions and order are unchanged; only shapes with the id get their props merged with the patch |
| `Document.MoveTo` | src/App.jsx:105-109 | ids, kinds, props and order are unchanged; shapes with another id are unchanged; shapes with the id get the new position |
| `Document.Remove` | src/App.jsx:248 | the result holds only shapes of the input without the id, and keeps every shape of the input with another id |
| `Document.RemoveAbsent` | src/App.jsx:248 | filtering out an id nobody carries returns the same list |
| `Document.RemoveHead` | src/App.jsx:248 | with unique ids, filtering out the first shape's id leaves exactly the rest of the list |
| `Document.RemoveAt` | src/App.jsx:247-252 | with unique ids, deleting shape k's id removes that one shape and keeps the others in order |
| `Document.RemoveKeepsUnique` | src/App.jsx:248 | filtering keeps ids unique |
| `Drag.Snap` | src/App.jsx:93-96 | the snapped value is a multiple of 20 within half a grid unit of the input (ties go up) |
| `Drag.SnapOnGrid` | src/App.jsx:94-95 | a value on the grid snaps to itself |
| `Drag.Clamp` | src/App.jsx:101-103 | the input itself when it is in [0, bound]; 0 below the range; the bound above it; 0 when the bound is negative |
| `Drag.Axis` | src/App.jsx:93-103 | one coordinate of a move lies in [0, bound]; without snapping an in-range value is kept; with snapping an in-range snapped value is kept; with snapping and a bound on the grid the result is on the grid |
| `Drag.DragTarget` | src/App.jsx:90-103 | the moved position keeps the whole bounding box inside the 800x600 canvas for any size up to 600 |
| `Drag.EffectiveSize` | src/App.jsx:98-99 | the size is the shape's own unless the shape is missing or has size 0, in which case it is 100 |
| `Drag.EffectiveSizeOfShape` | src/App.jsx:98-99 | with unique ids, a drag uses the dragged shape's own non-zero size |
| `Drag.SnappedAxisOnGrid` | src/App.jsx:93-103 | with snapping on and a bound on the grid, the written coordinate is on the grid |
| `Drag.ClampedSnapLeavesGrid` | src/App.jsx:93-103 | with snapping on, a size-110 shape pushed past the right edge stops at 690, which is off the grid |
| `Drag.Centered` | src/App.jsx:53 | a new shape's bounding box is centred on the canvas |
| `Drag.CenteredInside` | src/App.jsx:53 | a new shape of size 0 to 600 starts inside the canvas |
| `Drag.PressOffsetAsWritten` | src/App.jsx:78-81 | the recorded offset added to the shape's canvas position gives the pointer's viewport position |
| `Drag.PressOffset` | src/App.jsx:78-91 | corrected offset: the canvas origin plus the shape's position plus the offset gives the pointer's viewport position |
| `Drag.PressOffsetAsWrittenShifts` | src/App.jsx:78-91 | with the offset as written, a move that does not move the pointer puts the shape at its position minus the canvas origin |
| `Drag.PressOffsetAsWrittenJumps` | src/App.jsx:78-91 | concrete case: origin (100, 50), shape at (300, 200), no pointer motion; the shape lands at (200, 150) |
| `Drag.DragFollowsPointer` | src/App.jsx:78-91 | with the canvas-local offset the shape moves by the pointer's displacement (clamped), and a press without motion leaves an inside shape in place |
| `History.Commit` | src/App.jsx:27-32 | the log keeps entries 0..step, ends with the new snapshot, and has length step + 2 |
| `History.CommitAtEnd` | src/App.jsx:28-29 | committing at the newest entry only appends |
| `Keyboard.LowerChar` | src/App.jsx:210 | an ASCII upper-case letter moves 32 code points down to its lower-case form; any other character is kept; the result is never upper case |
| `Keyboard.Lower` | src/App.jsx:210 | lower-casing keeps the length and lower-cases each ASCII letter |
| `Keyboard.LowerIdempotent` | src/App.jsx:210 | lower-casing twice equals lower-casing once |
| `Keyboard.Dispatch` | src/App.jsx:209-254 | without Ctrl or Cmd every key is ignored |
| `Keyboard.DispatchIgnoresCase` | src/App.jsx:210 | the table does not distinguish letter case |
| `Keyboard.DispatchShiftOnlyForZ` | src/App.jsx:211-215 | Shift changes the action only for z |
| `Keyboard.DispatchCtrlOrCmd` | src/App.jsx:209 | Ctrl and Cmd are interchangeable |
| `Keyboard.RedoBindings` | src/App.jsx:211-219 | Ctrl+Y and Ctrl+Shift+Z both redo |
| `Keyboard.DispatchInverse` | src/App.jsx:209-254 | for each action, exactly which modifier and key combinations reach it |
| `App.Editor.constructor` | src/App.jsx:6-23 | empty document, a log of one empty snapshot at step 0, no selection, no drag, default style, snapping off |
| `App.Editor.AddToHistory` | src/App.jsx:27-32 | the log becomes Commit(old log, old step, s), the cursor sits on the new last entry, and nothing else changes |
| `App.Editor.Undo` | src/App.jsx:34-39 | no-op at step 0; otherwise the step goes down by one and the shapes become that snapshot; the log is unchanged |
| `App.Editor.Redo` | src/App.jsx:41-46 | no-op at the last step; otherwise the step goes up by one and the shapes become that snapshot; the log is unchanged |
| `App.Editor.FreshId` | src/App.jsx:51 | the issued id is positive and is the counter's value, and the counter goes past it |
| `App.Editor.AddShape` | src/App.jsx:49-60 | exactly one shape is appended, with a fresh id, the given kind, the pending props and a centred position; it is committed and selected, and nothing else changes |
| `App.Editor.UpdateShape` | src/App.jsx:62-69 | the props are merged into the matching shapes only; the log, cursor and selection are untouched |
| `App.Editor.EditProperty` | src/App.jsx:511-517 | the pending style takes the field, and every shape with the selected id gets the whole pending style; nothing is committed |
| `App.Editor.Select` | src/App.jsx:585 | only the selection changes |
| `App.Editor.ToggleSnap` | src/App.jsx:336 | only the snap flag flips |
| `App.Editor.MouseDown` | src/App.jsx:72-83 | selects the shape, starts a drag, and records the pointer offset when the shape exists; the offset is the corrected canvas-local one (see "## Left out") |
| `App.Editor.MouseMove` | src/App.jsx:85-111 | during a drag only the selected shape's position changes, to the snapped and clamped target, and a shape of size 20..200 ends inside the canvas; the log is untouched |
| `App.Editor.MouseUp` | src/App.jsx:113-118 | an active drag is committed exactly once; the drag flag is always cleared |
| `App.Editor.DuplicateSelected` | src/App.jsx:224-243 | with a selection in the list, appends a copy with the same kind and props, a fresh id and an unclamped +20/+20 offset, then commits and selects it; otherwise nothing changes |
| `App.Editor.DeleteSelected` | src/App.jsx:244-253 | with a selection, filters out its id, commits and clears the selection; otherwise nothing changes |
| `App.Editor.HandleKeyboard` | src/App.jsx:208-256 | runs the action from the table, prevents the default exactly for bound keys, and leaves the document and log alone on export or an unbound key |
| `Scenarios.UndoThenRedo` | src/App.jsx:34-46 | undo then redo, when both are possible and the shapes equal the current snapshot, restores shapes, step and log |
| `Scenarios.UndoThenRedoDropsUncommitted` | src/App.jsx:34-46 | undo then redo restores the committed snapshot, not uncommitted edits |
| `Scenarios.CommitDiscardsRedo` | src/App.jsx:27-46 | after any number n of undos and a new shape, the log keeps its entries up to the cursor and ends with the new list; the cursor is on the last entry, so the following redo does nothing |

## Left out

- `exportCanvas` (src/App.jsx:120-204): it draws with the browser's 2D canvas, uses floating-point trigonometry and triggers a file download. `Editor.HandleKeyboard` treats export as an action that changes neither the document nor the log.
- The render tree, the add-shape dropdown, the grid overlay and its toggle, the panels' markup and `getShapeStyles` (src/App.jsx:262-605). These are presentation. Only the panel's edit rule (`Editor.EditProperty`), the selection clicks (`Editor.Select`) and the snap toggle (`Editor.ToggleSnap`) are modelled.
- `preventDefault`, `stopPropagation`, listener registration and `getBoundingClientRect`. The handler's `prevented` result and the origin parameter stand in for them.
- React's batched state updates and effect re-registration. Each handler is one atomic step on the latest state.
- Floating-point rounding of positions. Positions are exact reals.
- The JSON round trip of snapshots, which would also turn non-finite numbers into `null`. Values are copied exactly.
- `parseInt` results that are not numbers. The sliders only produce integers.
- App.Editor.MouseDown: it does not record the offset the source records. The source stores the pointer's viewport position minus the shape's canvas position (`Drag.PressOffsetAsWritten`). The editor stores the canvas-local offset `Drag.PressOffset` instead, so it takes the canvas origin as a parameter. With the source's offset, a press without motion moves the shape by minus the canvas origin (see "## Findings").
- `Keyboard.Lower`: it lower-cases ASCII letters only, not the full Unicode case mapping of `toLowerCase`.
- src/components/Sidebar/Sidebar.jsx, src/components/Editor/Canvas.jsx, src/components/Toolbar/Toolbar.jsx and vite.config.js are not part of this model. They are presentational components, a wrapper over a drag library, and build configuration.

## Findings

| source | as written | input that shows it | evidently intended | confidence | as-written member | corrected member |
|---|---|---|---|---|---|---|
| src/App.jsx:78-91 | the press offset is the pointer's viewport coordinate minus the shape's canvas coordinate, and the move subtracts the canvas origin a second time | canvas origin (100, 50), shape of size 100 at (300, 200), press at viewport (400, 250), move without motion: the shape jumps to (200, 150) | the offset is taken in canvas coordinates, so the shape follows the pointer and does not jump | not executed; high | `Drag.PressOffsetAsWrittenJumps` | `Drag.DragFollowsPointer` |
