# Form builder resize controller

A model of the interactive resize controller of a form builder
(`src/lib/utils/resizeHandlers.ts`). `createResizeHandlers` closes over three
things: a shared builder state, a form whose `model` maps control ids to
controls, and the preview surface element (which may be missing). It defines
three handlers but returns only `startResize`. The other two run only as window
listeners, which `startResize` attaches once it has completed and
`handleResizeEnd` detaches:

- `startResize` runs when the user presses on a control's resize handle, with
  the handle's direction as an arbitrary string. It checks that the control
  exists and that a preview surface is present. It then records the control id,
  the direction and `isResizing`, and captures the control's rendered size and
  stored position.
- `handleResizeMove` runs on every pointer move. From the pointer offset
  relative to the preview surface and the captured size and position, it
  computes a new position and size for the edited control alone. Which edges
  move depends on the letters `n`, `s`, `e`, `w` in the direction. On each axis the
  direction names, width never goes below 100 and height never below 40; the
  other axes keep the rendered size.
- `handleResizeEnd` runs on release and turns `isResizing` and the direction off.

Files:

- `form_types.dfy` (module `FormTypes`): controls, positions and styles; the
  builder state; the `Form` and `FormBuilderState` classes that the handlers
  update in place; JavaScript's `||` and truthiness as used by the handlers.
- `resize_handlers.dfy` (module `ResizeHandlers`): the per-move geometry
  `MoveBox` and the control update `Resized`; the handler steps `Start`, `Move`
  and `End` as functions over a `Session` value (builder state plus control map);
  and the class `ResizeController`. Its methods update the shared objects field
  by field, in the source's order, and are proved equal to those functions
  through `Snapshot()`.
- `resize_properties.dfy` (module `ResizeProperties`): whole gestures as event
  sequences run through the steps, with lemmas about them.

Behaviours of the code one might not expect:

- `handleResizeEnd` does not clear `editingControlId`. It also keeps the
  captured size and position.
- With a `w` or `n` handle the left or top edge always lands on the pointer.
  The floor raises the width or height without moving `x` or `y` back. So once
  the floor applies, the opposite edge moves too.
- With an `e` or `s` handle the new width or height is the pointer's distance
  from the captured left or top edge. It is not the captured size plus a delta.
  For example, a control at (10, 10) rendered 120 by 60, with an `se` handle
  and the pointer at (160, 90), becomes 150 by 80 (`SouthEastScenario`).
- A control whose id is the empty string can start a gesture, but no move ever
  changes it: the move guard treats `""` as "no control".
- If the pressed handle has no `.control-wrapper` ancestor, reading its size
  throws. By then the id, `isResizing` and the direction are already set. The
  model passes that size as an optional value and keeps this partial update.

## Model

| member | source | states |
|---|---|---|
| FormTypes.StoredPoint | src/lib/utils/resizeHandlers.ts:26-29 | `position?.x` and `position?.y`, each or-ed with 0: a stored coordinate, 0 included, is read as it is; a missing position or coordinate reads as 0 |
| ResizeHandlers.Includes | src/lib/utils/resizeHandlers.ts:45-56 | `resizeDirection?.includes(c)`: true exactly when there is a direction and the letter occurs at some index of it |
| ResizeHandlers.KeptZIndex | src/lib/utils/resizeHandlers.ts:70 | `position?.zIndex` or-ed with 1: never 0; a truthy stored zIndex is kept; a missing position, or a missing or zero zIndex, gives 1 |
| ResizeHandlers.MoveEnabled | src/lib/utils/resizeHandlers.ts:36 | the move guard is closed when not resizing, when the edited id is missing or `""`, when that control is gone, or when there is no preview surface; an open guard names a control of the model; the guard is open when all four tests pass |
| ResizeHandlers.AtLeast | src/lib/utils/resizeHandlers.ts:46 | `Math.max(floor, v)`: the result is at least the floor and at least the request, and is one of the two |
| ResizeHandlers.MoveBox | src/lib/utils/resizeHandlers.ts:40-60 | floors of 100 and 40 on every axis the direction names; unnamed axes keep the captured size and position; `e`/`s` put the right/bottom edge on the pointer (or clamp to the floor); `w`/`n` put x/y on the pointer and keep the opposite edge fixed while unclamped, and move it when clamped |
| ResizeHandlers.Resized | src/lib/utils/resizeHandlers.ts:62-78 | the stored x and y are exactly the box's x and y and read back as such; zIndex is `KeptZIndex` of the old position: kept when truthy and 1 when missing or zero; width/height become px values; every other style key and every non-position, non-style attribute is kept |
| ResizeHandlers.Start | src/lib/utils/resizeHandlers.ts:8-29 | never touches the model; a missing control or preview surface changes nothing; otherwise id, `isResizing` and direction are set; with a wrapper, the size is captured and the position is the stored x/y with 0 when absent; without one the captured values are left as they were |
| ResizeHandlers.Move | src/lib/utils/resizeHandlers.ts:35-79 | the state and the set of controls are unchanged; a closed guard (not resizing, no or empty id, control gone, no surface) changes nothing; otherwise only the edited control changes, to `Resized` with `MoveBox` of the captured values |
| ResizeHandlers.End | src/lib/utils/resizeHandlers.ts:81-83 | `isResizing` false and no direction; edited id, captured size and position and the model unchanged |
| ResizeHandlers.ResizeController.constructor | src/lib/utils/resizeHandlers.ts:3-7 | the handlers share the given builder state and form, and the preview surface's presence |
| ResizeHandlers.ResizeController.StartResize | src/lib/utils/resizeHandlers.ts:8-33 | the field-by-field update equals `Start`; it throws exactly when the control and surface exist but the wrapper is missing |
| ResizeHandlers.ResizeController.HandleResizeMove | src/lib/utils/resizeHandlers.ts:35-79 | the sequential `if` blocks over the local width, height, x and y, and the model reassignment, equal `Move` |
| ResizeHandlers.ResizeController.HandleResizeEnd | src/lib/utils/resizeHandlers.ts:81-86 | writes only `isResizing` and `resizeDirection`, and equals `End` |
| ResizeProperties.RunKeepsControls | src/lib/utils/resizeHandlers.ts:62-64 | no sequence of handler calls adds or removes a control (for ids that are the model's own keys; see Left out) |
| ResizeProperties.RunKeepsOtherControls | src/lib/utils/resizeHandlers.ts:62-64 | a control that is not being edited, and that no call starts a gesture on, is left exactly as it was |
| ResizeProperties.DisabledMovesAreNoOps | src/lib/utils/resizeHandlers.ts:36 | while the move guard is closed, any number of moves leave the session unchanged |
| ResizeProperties.MovesAfterEndAreNoOps | src/lib/utils/resizeHandlers.ts:81-83 | after `handleResizeEnd`, any number of moves leave the session as the end left it |
| ResizeProperties.EmptyIdNeverMoves | src/lib/utils/resizeHandlers.ts:36 | a gesture started on the control with id `""` never changes the model |
| ResizeProperties.MoveOverwrites | src/lib/utils/resizeHandlers.ts:40-78 | a second move overwrites the first entirely, because each move is computed from the captured values |
| ResizeProperties.LastMoveWins | src/lib/utils/resizeHandlers.ts:40-78 | a run of moves commits what its last move alone commits |
| ResizeProperties.GestureRespectsFloors | src/lib/utils/resizeHandlers.ts:45-60 | after a started gesture and any moves, the committed width is at least 100 and height at least 40 on the axes the direction names; other axes keep the captured size |
| ResizeProperties.GestureFixedEdges | src/lib/utils/resizeHandlers.ts:40-60 | without `w`/`n` the x/y read back (missing as 0) as before the gesture; with `w`/`n` they read back as the pointer; while unclamped the right/bottom edge stays where it was |
| ResizeProperties.RestartReplacesGesture | src/lib/utils/resizeHandlers.ts:13-15 | starting a gesture on another control while one is active leaves the first control untouched by any number of later moves |
| ResizeProperties.SouthEastScenario | src/lib/utils/resizeHandlers.ts:45-50 | control at (10, 10) rendered 120 by 60, direction `se`, pointer at (160, 90): the result is 150 by 80 at the same position, and the gesture is idle after the release |

## Left out

- Event listener plumbing is not modelled. This covers `addEventListener` and `removeEventListener` (lines 31-32 and 84-85), `preventDefault` and `stopPropagation`. The model lets any handler call happen at any time, so it allows more call orders than the listeners do. In the source a move or end runs only between a completed `startResize` and the next release. The move guard is modelled by itself.
- Control ids are assumed to be the model's own keys. `form.model[id]` in JavaScript also finds inherited properties such as `constructor`. With such an id `startResize` passes its check, and the next move adds it as a new key of `form.model`. The model's `id in model` rejects these ids, so `RunKeepsControls` holds only for the model's own keys.
- The order of the model's keys is not modelled. It is the form's display order, and a move keeps it (the spread at lines 62-64 replaces the entry in place). A Dafny map has no order.
- DOM reads become parameters. `closest('.control-wrapper')` with `offsetWidth`/`offsetHeight` becomes the optional `wrapper` size. `clientX - rect.left` and `clientY - rect.top` become `px` and `py`. The preview element becomes the boolean `hasPreview`, fixed for the handlers' lifetime.
- Pixels are integers. Floating-point coordinates and `NaN` (which `|| 0` would also replace) are not modelled.
- `form?.` on a null form is not modelled; the form object always exists.
- Keys of a control's `position` object other than `x`, `y` and `zIndex` are not modelled. An absent `style` object is the empty map. `${n}px` strings are the `Px(n)` style value.
- `Form` and `FormBuilderState` are not declared in the shown type files. The model defines only the fields the handlers use. The idle initial state of `FormBuilderState` (no id, zero size and position) is an assumption.
- The type declaration files, the routes (a directory creation at startup and HTTP handlers returning fixed data), the browser end-to-end test and the document store are not part of this model. They hold declarations, I/O or UI tests, not resize logic.
