# DragResizeBlock geometry engine

A model of the geometry engine of the `DragResizeBlock` component of
react-native-drag-resize: a rectangle (`x, y, w, h`) with a selection flag,
moved by a centre handle and resized by eight edge and corner handles, each
gesture step constrained by a minimum size (`minW`, `minH`), a bounding box
(`limitation`), an axis lock (`x`, `y` or `all`) and the `isDraggable` /
`isResizable` flags.

- `geometry.dfy` (module `Geometry`): the data model, the construction floor,
  the reference table `Proposed` (where each handle would put the rectangle if
  no constraint applied) and the nine rules as pure functions. Every rule's
  contract states the same laws: per axis the new position/size pair is the old
  pair or the proposed pair (never a truncated value); the proposal is
  committed exactly when it obeys the bounds on the edges and sizes it changes;
  the minimum size and the four edge bounds are preserved; a locked axis is
  untouched; a gated-off rule or a null delta changes nothing; and the rule's
  fixed edges stay put.
- `lifecycle.dfy` (module `Lifecycle`): start/move/end events, the selection
  flag, the reports handed to registered callbacks, the rendered `zIndex`, and
  lemmas over whole event streams (minimum size, containment, axis lock,
  disabled flags, null deltas, selection lifecycle, reports).
- `placement.dfy` (module `Placement`): the `calculateX` / `calculateY`
  handle offsets with `CONNECTOR_SIZE = 14`.
- `block.dfy` (module `Block`): the component as a class whose fields are the
  state cells `x, y, w, h, isSelected`, plus the log of reports. Each handler is
  a method written in the source's imperative form; it reads the pre-step state
  and its contract ties the new state to the pure rule and to `Lifecycle.Apply`.

The bounding box's fields are named `minX, minY, maxRight, maxBottom` here; in
the source they are `limitation.x, .y, .w, .h`, and `w` and `h` are the
largest allowed right and bottom edges, not a width and a height.

The code never establishes containment in the limitation box: the initial
position is not checked (`src/DragResizeBlock.tsx:98-99`), and each resize
checks only the edge it moves (lines 228, 235, 266, 299, 305, 335, 366, 372,
401, 433, 440, 470). The model states this exactly. Each rule's contract
(`Decided`) says that, per axis, the proposed position/size pair is committed
if and only if the rule's gate is open, the axis is not locked, and every edge
and size the proposal changes obeys its bound; otherwise the axis keeps its old
pair. From that follows `Preserves`: the minimum size, and each of the four
edge bounds separately, once it holds, holds after every step
(`RunPreservesInvariants` for streams).

## Model

| member | source | states |
|---|---|---|
| Geometry.InitialRect | src/DragResizeBlock.tsx:98-101 | the initial position is kept; width and height are at least the minimum and are the given value or the minimum, whichever is larger |
| Geometry.Drag | src/DragResizeBlock.tsx:129-162 | move: size never changes; per axis the position is old or `x+dx`/`y+dy`, checked against both bounds of that axis; no-op when not draggable or for a null delta; committed per axis if and only if the gate is open, the axis is not locked and every moved edge and changed size obeys its bound (never a truncated value); the minimum size and each edge bound are preserved; locked axis untouched |
| Geometry.ResizeTL | src/DragResizeBlock.tsx:208-247 | top-left: right and bottom edges fixed; per axis old or proposed pair, checking the left/top bound and the minimum; no-op when not resizable or for a null delta; committed per axis if and only if the gate is open, the axis is not locked and every moved edge and changed size obeys its bound (never a truncated value); the minimum size and each edge bound are preserved; locked axis untouched |
| Geometry.ResizeTM | src/DragResizeBlock.tsx:249-278 | top edge: x and w unchanged, bottom edge fixed; old or proposed vertical pair; no-op when not resizable or dy = 0; committed per axis if and only if the gate is open, the axis is not locked and every moved edge and changed size obeys its bound (never a truncated value); the minimum size and each edge bound are preserved; locked axis untouched |
| Geometry.ResizeTR | src/DragResizeBlock.tsx:280-317 | top-right: x unchanged, bottom edge fixed; per axis old or proposed pair; no-op when not resizable or for a null delta; committed per axis if and only if the gate is open, the axis is not locked and every moved edge and changed size obeys its bound (never a truncated value); the minimum size and each edge bound are preserved; locked axis untouched |
| Geometry.ResizeMR | src/DragResizeBlock.tsx:319-346 | right edge: x, y, h unchanged; old or proposed width; no-op when not resizable or dx = 0; committed per axis if and only if the gate is open, the axis is not locked and every moved edge and changed size obeys its bound (never a truncated value); the minimum size and each edge bound are preserved; locked axis untouched |
| Geometry.ResizeBR | src/DragResizeBlock.tsx:348-383 | bottom-right: x and y unchanged; per axis old or proposed size; no-op when not resizable or for a null delta; committed per axis if and only if the gate is open, the axis is not locked and every moved edge and changed size obeys its bound (never a truncated value); the minimum size and each edge bound are preserved; locked axis untouched |
| Geometry.ResizeBM | src/DragResizeBlock.tsx:385-412 | bottom edge: x, y, w unchanged; old or proposed height; no-op when not resizable or dy = 0; committed per axis if and only if the gate is open, the axis is not locked and every moved edge and changed size obeys its bound (never a truncated value); the minimum size and each edge bound are preserved; locked axis untouched |
| Geometry.ResizeBL | src/DragResizeBlock.tsx:414-451 | bottom-left: right edge fixed, y unchanged; per axis old or proposed pair; no-op when not resizable or for a null delta; committed per axis if and only if the gate is open, the axis is not locked and every moved edge and changed size obeys its bound (never a truncated value); the minimum size and each edge bound are preserved; locked axis untouched |
| Geometry.ResizeML | src/DragResizeBlock.tsx:453-482 | left edge: right edge fixed, y and h unchanged; old or proposed pair; no-op when not resizable or dx = 0; committed per axis if and only if the gate is open, the axis is not locked and every moved edge and changed size obeys its bound (never a truncated value); the minimum size and each edge bound are preserved; locked axis untouched |
| Geometry.Step | src/DragResizeBlock.tsx:505-635 | the handle table: for every handle, the rule it is wired to commits per axis exactly as `Decided` says for that handle's gate, never truncates, preserves the minimum size and each edge bound, respects the axis lock, and is a no-op when its gate is closed or the delta is null |
| Geometry.StepCommitLaws | src/DragResizeBlock.tsx:129-482 | no step truncates: per axis the result is the old pair or the proposed pair; a proposal that obeys every constraint of its axis is committed whenever the gate and the axis lock allow |
| Geometry.AxesIndependent | src/DragResizeBlock.tsx:129-482 | a step's horizontal result does not depend on dy and its vertical result does not depend on dx |
| Geometry.GrowThenShrinkExample | src/DragResizeBlock.tsx:348-482 | from (0,0,100,100), bottom-right by [50,50] gives (0,0,150,150); then left edge by [40,0] gives (40,0,110,150) |
| Geometry.TopLeftOutOfBoundsExample | src/DragResizeBlock.tsx:222-239 | top-left by [-10,-10] at the limitation's corner rejects both components |
| Geometry.RightEdgeBelowMinimumExample | src/DragResizeBlock.tsx:332-338 | right edge by [-60,0] on width 100 with minW 50 is rejected |
| Lifecycle.Initial | src/DragResizeBlock.tsx:98-102 | a new block keeps the given position; each of width and height is the given value when that meets the minimum and exactly the minimum otherwise; it is not selected and has reported nothing |
| Lifecycle.EventCallback | src/DragResizeBlock.tsx:505-635 | the centre handle reports to the drag callbacks and every other handle to the resize callbacks; starts go to the start callbacks, ends to the end callbacks, moves to the move callbacks |
| Lifecycle.Notify | src/DragResizeBlock.tsx:117-122 | calling a callback with a position yields one report of that position if and only if the callback is registered, and nothing if and only if it is not |
| Lifecycle.Apply | src/DragResizeBlock.tsx:110-501 | a start selects and an end deselects without moving; a move keeps the selection and decides each axis as `Decided` says for the handle's rule (nothing changes on a disabled handle); minimum size, edge bounds and axis lock preserved; the log grows by exactly the report of the pre-step position to the event's callback if and only if that callback is registered and the handler runs, and is unchanged otherwise |
| Lifecycle.Run | src/DragResizeBlock.tsx:110-501 | over a stream of events the log only grows, by at most one report per event |
| Lifecycle.RenderedZIndex | src/DragResizeBlock.tsx:667 | the drawn zIndex is the configured one plus one exactly when selected, and the configured one exactly when not |
| Lifecycle.HooksToggleSelection | src/DragResizeBlock.tsx:110-206 | start hooks select, end hooks deselect, neither changes the rectangle; each reports the position at call time to its callback when registered, and the log is unchanged when not |
| Lifecycle.MoveReportsPreStepPosition | src/DragResizeBlock.tsx:141-161 | a committed drag of [10,0] from (0,0) leaves the block at (10,0) but reports (0,0): move callbacks see the pre-step position |
| Lifecycle.RunPreservesInvariants | src/DragResizeBlock.tsx:129-482 | after any event stream the minimum size still holds if it held, and each of the four limitation edges is still respected if it was |
| Lifecycle.RunAxisLocked | src/DragResizeBlock.tsx:129-482 | with axis x no event stream changes y or h; with axis y none changes x or w |
| Lifecycle.RunDisabled | src/DragResizeBlock.tsx:129-482 | not resizable: no event stream changes the size; neither draggable nor resizable: no stream changes the rectangle |
| Lifecycle.RunNullDeltas | src/DragResizeBlock.tsx:129-482 | an event stream whose moves all have delta [0,0] leaves the rectangle unchanged |
| Lifecycle.RunMovesKeepSelection | src/DragResizeBlock.tsx:129-162 | move events never change the selection flag |
| Lifecycle.GestureSelection | src/DragResizeBlock.tsx:193-501 | in start, moves, end the block is selected after the start and after every move, and deselected after the end |
| Lifecycle.RunReports | src/DragResizeBlock.tsx:110-501 | reports are only appended, at most one per event; with all callbacks registered and both gates open exactly one per event, and the report added by event i is the i-th new entry and goes to that event's callback |
| Placement.CalculateX | src/DragResizeBlock.tsx:505-635 | for width >= 14 every handle's x offset lies in [0, width - 14] |
| Placement.CalculateY | src/DragResizeBlock.tsx:505-635 | for height >= 14 every handle's y offset lies in [0, height - 14] |
| Placement.NearHandlesFlush | src/DragResizeBlock.tsx:505-635 | left-side handles start at x offset 0 and top handles at y offset 0 |
| Placement.FarHandlesFlush | src/DragResizeBlock.tsx:535-575 | right-side handles end flush with the right side and bottom handles with the bottom |
| Placement.MiddleHandlesAreMidpoints | src/DragResizeBlock.tsx:520-635 | each edge-middle handle is the midpoint of its edge's two corner handles; the centre handle is at (top-middle x, middle-left y) |
| Placement.HandlesInsideBlock | src/DragResizeBlock.tsx:648-649 | with minimums of at least one handle size, every handle of a rectangle of at least the minimum size lies inside it |
| Block.DragResizeBlock.constructor | src/DragResizeBlock.tsx:98-102 | the new block is the floored initial rectangle, not selected, nothing reported, and satisfies the minimum size |
| Block.DragResizeBlock.Invoke | src/DragResizeBlock.tsx:117-122 | a callback receives the given position exactly when it is registered |
| Block.DragResizeBlock.OnDragStart | src/DragResizeBlock.tsx:110-123 | selects the block, geometry unchanged, reports the position; equals `Apply` of a start on the centre handle |
| Block.DragResizeBlock.OnDrag | src/DragResizeBlock.tsx:129-162 | the new rectangle is `Drag` of the old one; the whole new state is `Apply` of a centre move |
| Block.DragResizeBlock.OnDragEnd | src/DragResizeBlock.tsx:168-181 | deselects the block, geometry unchanged, reports the position; equals `Apply` of an end on the centre handle |
| Block.DragResizeBlock.OnResizeStart | src/DragResizeBlock.tsx:193-206 | selects the block, geometry unchanged, reports the position to onResizeStart if registered; equals `Apply` of a start on any resize handle |
| Block.DragResizeBlock.OnResizeTL | src/DragResizeBlock.tsx:208-247 | the new rectangle is `ResizeTL` of the old one; the whole new state is `Apply` of a top-left move |
| Block.DragResizeBlock.OnResizeTM | src/DragResizeBlock.tsx:249-278 | the new rectangle is `ResizeTM` of the old one; the whole new state is `Apply` of a top-middle move |
| Block.DragResizeBlock.OnResizeTR | src/DragResizeBlock.tsx:280-317 | the new rectangle is `ResizeTR` of the old one; the whole new state is `Apply` of a top-right move |
| Block.DragResizeBlock.OnResizeMR | src/DragResizeBlock.tsx:319-346 | the new rectangle is `ResizeMR` of the old one; the whole new state is `Apply` of a middle-right move |
| Block.DragResizeBlock.OnResizeBR | src/DragResizeBlock.tsx:348-383 | the new rectangle is `ResizeBR` of the old one; the whole new state is `Apply` of a bottom-right move |
| Block.DragResizeBlock.OnResizeBM | src/DragResizeBlock.tsx:385-412 | the new rectangle is `ResizeBM` of the old one; the whole new state is `Apply` of a bottom-middle move |
| Block.DragResizeBlock.OnResizeBL | src/DragResizeBlock.tsx:414-451 | the new rectangle is `ResizeBL` of the old one; the whole new state is `Apply` of a bottom-left move |
| Block.DragResizeBlock.OnResizeML | src/DragResizeBlock.tsx:453-482 | the new rectangle is `ResizeML` of the old one; the whole new state is `Apply` of a middle-left move |
| Block.DragResizeBlock.OnResizeEnd | src/DragResizeBlock.tsx:488-501 | deselects the block, geometry unchanged, reports the position to onResizeEnd if registered; equals `Apply` of an end on any resize handle |
| Block.DragResizeBlock.ZIndex | src/DragResizeBlock.tsx:667 | the block is drawn one level higher than configured exactly when it is selected, and at the configured level exactly when not |
| Block.DragResizeBlock.ConnectorOffset | src/DragResizeBlock.tsx:648-649 | a handle of a valid block is drawn at calculateX of the current width and calculateY of the current height; on each axis whose minimum is at least the handle size, it lies inside the block |

## Left out

- Rendering: `View`, `TouchableWithoutFeedback`, `renderConnectors`, padding and styles, the `connectors` prop (which handles are drawn) and `isDisabled` (no handles drawn). These are UI only.
- The `Connector` component and its pointer capture; `./Connector` is not part of this model. Its only role here is to supply deltas, which are method parameters.
- `Dimensions.get('window')` in the default limitation: a platform query. The limitation is a parameter of the block.
- `onPress` pass-through and the user callbacks themselves. These are foreign functions. A callback call is modelled as a `Report` appended to the block's log.
- Default-prop merging and JavaScript `undefined`. The block is constructed from explicit values.
- React state scheduling and re-rendering. Each handler call is one atomic step from the pre-step state. Props are fixed for the lifetime of a block, so changing them between renders is not modelled.
- Floating point. Positions and sizes are integers; handle offsets are reals because of the division by 2.

