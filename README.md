# Moveable components: store, selection and bounds clamping

This project models the state engine behind the `App` component of the
Challenge-Kosmos canvas (src/App.js). A user adds coloured rectangles
("moveables") to a container, then selects, drags, resizes and deletes them.
The model covers:

- **Geometry** (`geometry.dfy`): the component's box (top, left, width,
  height, colour), the container's size, and `checkBounds`. `checkBounds`
  moves top and left, and only those, so that the box lies inside the
  container. It is defined per axis by `ClampAxis`.
- **Store** (`store.dfy`): the `moveableComponents` sequence. It covers the
  record `addMoveable` appends, the `map` behind `updateMoveable` (`Updated`)
  and the `filter` behind `deleteMoveable` (`Deleted`). Ids may repeat, so
  both act on every record that carries the id.
- **Gestures** (`gestures.dfy`): what `onDrag`, `onResize` and `onResizeEnd`
  write into the store. Each is given the component's rendered record
  (`props`) and the fields of the gesture event.
- **App state** (`app.dfy`): a class `App` with the two state variables,
  `components` and `selected`. Its methods replace one of them wholesale, as
  the source's state setters do. Each method is proved to leave the state
  that the store and gesture functions describe.

Pixel values are `real`: the code only adds, subtracts and compares them.
The container's width and height are an `Area` parameter. The code reads
them from the page on every clamp (src/App.js:60, 258). Within one handler
the page is the same for both readings.

Notes on what the code does:

- `addMoveable` does not guarantee a fresh id. The id is
  `Math.floor(Math.random() * Date.now())`, so the model takes an arbitrary
  integer.
- Deleting a component does not clear the selection, and selecting does not
  check the id.
- `checkBounds` has no failure for an empty or negative container. It is
  total.
- A live resize is clamped. `onResize` goes through `updateMoveable`, which
  always applies `checkBounds`. It clamps the rendered (old) top/left
  together with the new width/height.
- A drag always stores `updateEnd = false`. No handler commits a drag.
- Drag and resize end clamp twice: once in the handler, then again in
  `updateMoveable`. This is harmless for a box that fits the container.
  For a box larger than the container, the second clamp flips the
  position. The stored top is 0 when the raw top was not negative, and
  `H - height` when it was (`ClampAxisTwiceOversized`, `DragStores`,
  `ResizeEndStores`).
- There is no drift during a drag. `onDrag` reads the absolute position
  from its event, and each update replaces whole records. So a run of drag
  events stores what the last event alone would store
  (`DragSequenceLastWins`).

## Model

| member | source | states |
|---|---|---|
| Geometry.ClampAxis | src/App.js:66-76 | if the box is not larger than the container on an axis, the clamped position lies in [0, limit - extent]; a position already in range is kept |
| Geometry.ClampAxisNearest | src/App.js:66-76 | the clamped position is at least as close to the original as any in-range position |
| Geometry.ClampAxisTwice | src/App.js:63-76 | clamping twice equals clamping once if and only if the extent does not exceed the limit |
| Geometry.ClampAxisTwiceOversized | src/App.js:66-69 | for an oversized box, one clamp gives 0 or the negative far-edge position, and a second clamp gives the other one |
| Geometry.CheckBounds | src/App.js:55-79 | width, height and colour come out unchanged; a box no larger than the container comes out inside it; a box already inside is returned unchanged |
| Geometry.CheckBoundsNearest | src/App.js:63-76 | among same-size boxes inside the container, the clamped box is displaced least on each axis |
| Geometry.CheckBoundsTwice | src/App.js:63-78 | `checkBounds` is idempotent on a box exactly when the box is no larger than the container |
| Geometry.CheckBoundsExample | src/App.js:72-76 | with width 800, a 100-wide box at left 900 is moved to left 700 |
| Store.PickColor | src/App.js:19-29 | the colour is the palette entry at index floor(roll * 5) |
| Store.DefaultMoveableFits | src/App.js:23-31 | the added 100 x 100 record at the origin lies inside any container of at least 100 x 100 |
| Store.Updated | src/App.js:39-45 | the update keeps the length of the sequence |
| Store.UpdatedAt | src/App.js:39-45 | at every index, a record with the id becomes `checkBounds({id, ...newComponent, updateEnd})` and any other record is unchanged; ids and order are kept |
| Store.UpdatedAbsent | src/App.js:39-46 | an update for an absent id leaves the sequence identical |
| Store.UpdatedLastWins | src/App.js:40-42 | a second update of the same id overrides the first completely, so updating twice with the same arguments equals updating once |
| Store.UpdatedFits | src/App.js:40-42 | after an update with a box no larger than the container, every record with the id lies inside the container |
| Store.Deleted | src/App.js:51 | a record is in the result if and only if it was in the input and has a different id; the result is no longer than the input |
| Store.DeletedHasNoId | src/App.js:51 | no record with the deleted id remains |
| Store.DeletedAbsent | src/App.js:51 | deleting an absent id leaves the sequence identical |
| Store.DeletedTwice | src/App.js:49-53 | deleting the same id twice equals deleting it once |
| Store.DeletedAppend | src/App.js:51 | deletion distributes over concatenation, so the kept records stay in their relative order |
| Gestures.DragStores | src/App.js:256-283 | a drag leaves other records alone; a record with the id gets the event's size, the component's colour and `updateEnd` false; on each axis where the box fits, the position is the single clamp of the event's position (and a fully fitting box lies inside); on an oversized axis it ends at 0 or at the far edge, flipped by the second clamp |
| Gestures.DragSequenceLastWins | src/App.js:256-283 | a run of drag events stores exactly what its last event alone stores |
| Gestures.ResizeStores | src/App.js:184-193 | a live resize stores exactly `checkBounds` of the rendered top/left with the new size, clamped once (no flip for an oversized box); a fitting size lies inside; a position that still fits is kept; other records unchanged |
| Gestures.ResizeEndBox | src/App.js:211-225 | a record is committed if and only if the last event carries a translation; it has the final size and the component's colour, and lies inside the container when the size allows it |
| Gestures.ResizeEndStores | src/App.js:211-229 | without a last event or a translation nothing changes; otherwise each record with the id becomes committed, at the rendered position plus the translation, clamped once on each axis where it fits and flipped by the double clamp on an oversized axis; others unchanged |
| Gestures.ResizeEndTwice | src/App.js:211-229 | committing the same final resize event twice stores the same records as committing it once |
| Gestures.DragExample | src/App.js:256-283 | in an 800 x 600 container, dragging a default box to left 900 stores it at left 700, not committed |
| Gestures.ResizeExample | src/App.js:184-229 | resizing a default box from the top-left handle to 150 x 150 with translation (-50, -50) keeps it at 0/0 while live and commits it clamped to 0/0 |
| AppState.App.constructor | src/App.js:5-11 | the component list starts empty and nothing is selected |
| AppState.App.AddMoveable | src/App.js:13-33 | exactly one record is appended at the end, a 100 x 100 box at the origin with a palette colour and `updateEnd` true; earlier records and the selection are unchanged |
| AppState.App.UpdateMoveable | src/App.js:35-47 | the new list is `Updated` of the old one, with `updateEnd` defaulting to false; the length is kept; an absent id changes nothing; the selection is unchanged |
| AppState.App.DeleteMoveable | src/App.js:49-53 | the new list is `Deleted` of the old one and carries no record with the id; an absent id changes nothing; the selection is left as it was |
| AppState.App.SetSelected | src/App.js:249 | the clicked id becomes the one selected id, unchecked; the list is unchanged |
| AppState.App.OnDrag | src/App.js:256-283 | the list becomes what `DragApplied` describes; the selection is unchanged |
| AppState.App.OnResize | src/App.js:184-193 | the list becomes what `ResizeApplied` describes; the selection is unchanged |
| AppState.App.OnResizeEnd | src/App.js:211-229 | the list becomes what `ResizeEndApplied` describes; the selection is unchanged |

## Left out

- Rendering: the JSX of the canvas, the component list and the "Add
  Moveable" button (src/App.js:94-131, 231-250). These are display only.
- The `react-moveable` library (src/App.js:2, 252-297). Its code is not
  part of this model. Its event fields (`top`, `left`, `width`, `height`,
  `drag.beforeTranslate`, `lastEvent`) are plain inputs.
- Reading the container's bounding rectangle from the page (src/App.js:60,
  258). This is page I/O, so the container's size is a parameter.
- `fetchImage` and the image-loading effect (src/App.js:161-182). These are
  network I/O, asynchronous and decorative.
- The component's local `nodoReferencia` state and the `ref.current.style`
  writes in `onResize` (src/App.js:151-159, 198-208). They change only what
  is drawn, not the store.
- `handleResizeStart` (src/App.js:81-92). It computes locals that it never
  uses, so it has no effect.
- `Math.random` and `Date.now` for ids and colours (src/App.js:24, 29).
  They are inputs: the id is an arbitrary integer, and the colour roll is a
  real number in [0, 1).
- JavaScript floating point. Pixel values are exact reals, so rounding is
  not modelled.
- React's stale closures and batching. Each handler is modelled as acting
  on the list as it is when the handler runs. A second event handled before
  a re-render would act on the older list in the source.
- Gestures.ResizeEndApplied: a missing `lastEvent` makes the source's
  destructuring throw before anything is written. It is modelled as "no
  change"; the thrown error itself is not modelled.
