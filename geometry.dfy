/**
 The geometry engine of a drag-and-resize block: a rectangle, the constraints a
 gesture is evaluated against, and the nine transition rules (one move rule and
 eight resize rules, one per handle).

 Every rule reads only the rectangle as it was before the step and decides, for
 each axis on its own, whether to commit the proposed position/size pair for that
 axis or to keep the old pair.  A rule never truncates a value.
 */
module Geometry {

  /** The axis lock: `AxisX` allows only horizontal changes, `AxisY` only vertical ones. */
  datatype Axis = AxisX | AxisY | AxisAll

  /** The bounding box.  In the source its fields are called x, y, w and h, but w and h
      are the largest allowed right and bottom edges, not a width and a height. */
  datatype Limitation = Limitation(minX: int, minY: int, maxRight: int, maxBottom: int)

  /** Position of the top-left corner and size of the block. */
  datatype Rect = Rect(x: int, y: int, w: int, h: int)

  /** The constraints every gesture step is evaluated against. */
  datatype Constraints = Constraints(
    minW: int,
    minH: int,
    axis: Axis,
    limitation: Limitation,
    isDraggable: bool,
    isResizable: bool)

  /** The nine handles: four corners, four edge midpoints and the centre (the move handle). */
  datatype Handle =
    | TopLeft | TopMiddle | TopRight | MiddleRight
    | BottomRight | BottomMiddle | BottomLeft | MiddleLeft
    | Center

  // ---------------------------------------------------------------------------
  // Invariants of a rectangle with respect to the constraints
  // ---------------------------------------------------------------------------

  predicate MinSize(r: Rect, c: Constraints) {
    r.w >= c.minW && r.h >= c.minH
  }

  /** The horizontal extent [x, x + w] lies within [minX, maxRight]. */
  predicate ContainedH(r: Rect, lim: Limitation) {
    lim.minX <= r.x && r.x + r.w <= lim.maxRight
  }

  /** The vertical extent [y, y + h] lies within [minY, maxBottom]. */
  predicate ContainedV(r: Rect, lim: Limitation) {
    lim.minY <= r.y && r.y + r.h <= lim.maxBottom
  }

  /** The horizontal part of `r` obeys every horizontal constraint. */
  predicate FitsH(r: Rect, c: Constraints) {
    r.w >= c.minW && ContainedH(r, c.limitation)
  }

  /** The vertical part of `r` obeys every vertical constraint. */
  predicate FitsV(r: Rect, c: Constraints) {
    r.h >= c.minH && ContainedV(r, c.limitation)
  }

  // ---------------------------------------------------------------------------
  // Construction
  // ---------------------------------------------------------------------------

  /** The initial rectangle: width and height below the minimum are raised to it. */
  function InitialRect(x: int, y: int, w: int, h: int, minW: int, minH: int): (r: Rect)
    ensures r.x == x && r.y == y
    ensures r.w >= minW && r.w >= w && (r.w == w || r.w == minW)
    ensures r.h >= minH && r.h >= h && (r.h == h || r.h == minH)
  {
    Rect(x, y, if w < minW then minW else w, if h < minH then minH else h)
  }

  // ---------------------------------------------------------------------------
  // The reference table: where each handle would put the rectangle if no
  // constraint applied.  A moved left edge keeps the right edge x + w where it
  // was, a moved top edge keeps the bottom edge y + h.
  // ---------------------------------------------------------------------------

  function Proposed(hd: Handle, r: Rect, dx: int, dy: int): Rect {
    match hd
    case Center       => Rect(r.x + dx, r.y + dy, r.w, r.h)
    case TopLeft      => Rect(r.x + dx, r.y + dy, (r.x + r.w) - (r.x + dx), (r.y + r.h) - (r.y + dy))
    case TopMiddle    => Rect(r.x, r.y + dy, r.w, (r.y + r.h) - (r.y + dy))
    case TopRight     => Rect(r.x, r.y + dy, r.w + dx, (r.y + r.h) - (r.y + dy))
    case MiddleRight  => Rect(r.x, r.y, r.w + dx, r.h)
    case BottomRight  => Rect(r.x, r.y, r.w + dx, r.h + dy)
    case BottomMiddle => Rect(r.x, r.y, r.w, r.h + dy)
    case BottomLeft   => Rect(r.x + dx, r.y, (r.x + r.w) - (r.x + dx), r.h + dy)
    case MiddleLeft   => Rect(r.x + dx, r.y, (r.x + r.w) - (r.x + dx), r.h)
  }

  /** The gate of a handle: the move handle needs `isDraggable`, the others `isResizable`. */
  function Enabled(hd: Handle, c: Constraints): bool {
    if hd == Center then c.isDraggable else c.isResizable
  }

  // ---------------------------------------------------------------------------
  // The laws every rule obeys, stated once and used in every rule's contract
  // ---------------------------------------------------------------------------

  /** Per axis, the new pair is either the old pair or the proposed pair: nothing in between. */
  predicate AllOrNothing(r: Rect, r': Rect, q: Rect) {
    && ((r'.x == r.x && r'.w == r.w) || (r'.x == q.x && r'.w == q.w))
    && ((r'.y == r.y && r'.h == r.h) || (r'.y == q.y && r'.h == q.h))
  }

  /** Per axis, a proposal that obeys every constraint of that axis is committed
      when the gate is open and the axis lock allows that axis. */
  predicate CommitsWhenFits(r': Rect, q: Rect, c: Constraints, gate: bool) {
    && (gate && c.axis != AxisY && FitsH(q, c) ==> r'.x == q.x && r'.w == q.w)
    && (gate && c.axis != AxisX && FitsV(q, c) ==> r'.y == q.y && r'.h == q.h)
  }

  /** Every edge and size the proposal changes on the horizontal axis obeys its bound:
      a moved left edge stays at or right of minX, a moved right edge at or left of
      maxRight, and a changed width is at least minW.  Unchanged edges are not checked. */
  predicate ChecksH(r: Rect, q: Rect, c: Constraints) {
    && (q.x != r.x ==> c.limitation.minX <= q.x)
    && (q.x + q.w != r.x + r.w ==> q.x + q.w <= c.limitation.maxRight)
    && (q.w != r.w ==> q.w >= c.minW)
  }

  /** The same for the vertical axis: top edge, bottom edge and height. */
  predicate ChecksV(r: Rect, q: Rect, c: Constraints) {
    && (q.y != r.y ==> c.limitation.minY <= q.y)
    && (q.y + q.h != r.y + r.h ==> q.y + q.h <= c.limitation.maxBottom)
    && (q.h != r.h ==> q.h >= c.minH)
  }

  /** The exact outcome of a step with proposal `q`: an axis takes the proposed pair
      when the gate is open, the axis lock allows the axis and every edge and size the
      proposal changes on it obeys its bound; otherwise it keeps the old pair. */
  predicate Decided(r: Rect, r': Rect, q: Rect, c: Constraints, gate: bool) {
    && (if gate && c.axis != AxisY && ChecksH(r, q, c)
        then r'.x == q.x && r'.w == q.w else r'.x == r.x && r'.w == r.w)
    && (if gate && c.axis != AxisX && ChecksV(r, q, c)
        then r'.y == q.y && r'.h == q.h else r'.y == r.y && r'.h == r.h)
  }

  /** The minimum size and each edge's bound are preserved: an edge inside its bound
      before the step is inside it after (so is each axis's containment). */
  predicate Preserves(r: Rect, r': Rect, c: Constraints) {
    && (r.w >= c.minW ==> r'.w >= c.minW)
    && (r.h >= c.minH ==> r'.h >= c.minH)
    && (c.limitation.minX <= r.x ==> c.limitation.minX <= r'.x)
    && (r.x + r.w <= c.limitation.maxRight ==> r'.x + r'.w <= c.limitation.maxRight)
    && (c.limitation.minY <= r.y ==> c.limitation.minY <= r'.y)
    && (r.y + r.h <= c.limitation.maxBottom ==> r'.y + r'.h <= c.limitation.maxBottom)
  }

  /** A locked axis keeps its position and its size. */
  predicate AxisLocked(r: Rect, r': Rect, axis: Axis) {
    && (axis == AxisX ==> r'.y == r.y && r'.h == r.h)
    && (axis == AxisY ==> r'.x == r.x && r'.w == r.w)
  }

  // ---------------------------------------------------------------------------
  // The nine rules
  // ---------------------------------------------------------------------------

  /** Move (centre handle): both edges of an axis are checked against the limitation. */
  function Drag(r: Rect, c: Constraints, dx: int, dy: int): (r': Rect)
    ensures Decided(r, r', Proposed(Center, r, dx, dy), c, c.isDraggable)
    ensures Preserves(r, r', c)
    ensures AxisLocked(r, r', c.axis)
    ensures r'.w == r.w && r'.h == r.h
    ensures !c.isDraggable || (dx == 0 && dy == 0) ==> r' == r
  {
    if !c.isDraggable then r
    else
      var newX := r.x + dx;
      var newY := r.y + dy;
      var lim := c.limitation;
      var x' := if c.axis != AxisY && lim.minX <= newX && lim.maxRight >= newX + r.w then newX else r.x;
      var y' := if c.axis != AxisX && lim.minY <= newY && lim.maxBottom >= newY + r.h then newY else r.y;
      Rect(x', y', r.w, r.h)
  }

  /** Top-left corner: moves the left and the top edge; only those edges are checked. */
  function ResizeTL(r: Rect, c: Constraints, dx: int, dy: int): (r': Rect)
    ensures Decided(r, r', Proposed(TopLeft, r, dx, dy), c, c.isResizable)
    ensures Preserves(r, r', c)
    ensures AxisLocked(r, r', c.axis)
    ensures r'.x + r'.w == r.x + r.w && r'.y + r'.h == r.y + r.h
    ensures !c.isResizable || (dx == 0 && dy == 0) ==> r' == r
  {
    if !c.isResizable then r
    else
      var newX := r.x + dx;
      var newY := r.y + dy;
      var newW := r.x + r.w - newX;
      var newH := r.y + r.h - newY;
      var horizontal := newW >= c.minW && c.axis != AxisY && c.limitation.minX <= newX;
      var vertical := newH >= c.minH && c.axis != AxisX && c.limitation.minY <= newY;
      Rect(if horizontal then newX else r.x, if vertical then newY else r.y,
           if horizontal then newW else r.w, if vertical then newH else r.h)
  }

  /** Top edge: moves the top edge only. */
  function ResizeTM(r: Rect, c: Constraints, dx: int, dy: int): (r': Rect)
    ensures Decided(r, r', Proposed(TopMiddle, r, dx, dy), c, c.isResizable)
    ensures Preserves(r, r', c)
    ensures AxisLocked(r, r', c.axis)
    ensures r'.x == r.x && r'.w == r.w && r'.y + r'.h == r.y + r.h
    ensures !c.isResizable || dy == 0 ==> r' == r
  {
    if !c.isResizable then r
    else
      var newY := r.y + dy;
      var newH := r.y + r.h - newY;
      var vertical := newH >= c.minH && c.axis != AxisX && c.limitation.minY <= newY;
      Rect(r.x, if vertical then newY else r.y, r.w, if vertical then newH else r.h)
  }

  /** Top-right corner: moves the right and the top edge. */
  function ResizeTR(r: Rect, c: Constraints, dx: int, dy: int): (r': Rect)
    ensures Decided(r, r', Proposed(TopRight, r, dx, dy), c, c.isResizable)
    ensures Preserves(r, r', c)
    ensures AxisLocked(r, r', c.axis)
    ensures r'.x == r.x && r'.y + r'.h == r.y + r.h
    ensures !c.isResizable || (dx == 0 && dy == 0) ==> r' == r
  {
    if !c.isResizable then r
    else
      var newY := r.y + dy;
      var newW := r.w + dx;
      var newH := r.y + r.h - newY;
      var horizontal := newW >= c.minW && c.axis != AxisY && c.limitation.maxRight >= r.x + newW;
      var vertical := newH >= c.minH && c.axis != AxisX && c.limitation.minY <= newY;
      Rect(r.x, if vertical then newY else r.y,
           if horizontal then newW else r.w, if vertical then newH else r.h)
  }

  /** Right edge: moves the right edge only. */
  function ResizeMR(r: Rect, c: Constraints, dx: int, dy: int): (r': Rect)
    ensures Decided(r, r', Proposed(MiddleRight, r, dx, dy), c, c.isResizable)
    ensures Preserves(r, r', c)
    ensures AxisLocked(r, r', c.axis)
    ensures r'.x == r.x && r'.y == r.y && r'.h == r.h
    ensures !c.isResizable || dx == 0 ==> r' == r
  {
    if !c.isResizable then r
    else
      var newW := r.w + dx;
      var horizontal := newW >= c.minW && c.axis != AxisY && c.limitation.maxRight >= r.x + newW;
      Rect(r.x, r.y, if horizontal then newW else r.w, r.h)
  }

  /** Bottom-right corner: moves the right and the bottom edge. */
  function ResizeBR(r: Rect, c: Constraints, dx: int, dy: int): (r': Rect)
    ensures Decided(r, r', Proposed(BottomRight, r, dx, dy), c, c.isResizable)
    ensures Preserves(r, r', c)
    ensures AxisLocked(r, r', c.axis)
    ensures r'.x == r.x && r'.y == r.y
    ensures !c.isResizable || (dx == 0 && dy == 0) ==> r' == r
  {
    if !c.isResizable then r
    else
      var newW := r.w + dx;
      var newH := r.h + dy;
      var horizontal := newW >= c.minW && c.axis != AxisY && c.limitation.maxRight >= r.x + newW;
      var vertical := newH >= c.minH && c.axis != AxisX && c.limitation.maxBottom >= r.y + newH;
      Rect(r.x, r.y, if horizontal then newW else r.w, if vertical then newH else r.h)
  }

  /** Bottom edge: moves the bottom edge only. */
  function ResizeBM(r: Rect, c: Constraints, dx: int, dy: int): (r': Rect)
    ensures Decided(r, r', Proposed(BottomMiddle, r, dx, dy), c, c.isResizable)
    ensures Preserves(r, r', c)
    ensures AxisLocked(r, r', c.axis)
    ensures r'.x == r.x && r'.y == r.y && r'.w == r.w
    ensures !c.isResizable || dy == 0 ==> r' == r
  {
    if !c.isResizable then r
    else
      var newH := r.h + dy;
      var vertical := newH >= c.minH && c.axis != AxisX && c.limitation.maxBottom >= r.y + newH;
      Rect(r.x, r.y, r.w, if vertical then newH else r.h)
  }

  /** Bottom-left corner: moves the left and the bottom edge. */
  function ResizeBL(r: Rect, c: Constraints, dx: int, dy: int): (r': Rect)
    ensures Decided(r, r', Proposed(BottomLeft, r, dx, dy), c, c.isResizable)
    ensures Preserves(r, r', c)
    ensures AxisLocked(r, r', c.axis)
    ensures r'.x + r'.w == r.x + r.w && r'.y == r.y
    ensures !c.isResizable || (dx == 0 && dy == 0) ==> r' == r
  {
    if !c.isResizable then r
    else
      var newX := r.x + dx;
      var newW := r.x + r.w - newX;
      var newH := r.h + dy;
      var horizontal := newW >= c.minW && c.axis != AxisY && c.limitation.minX <= newX;
      var vertical := newH >= c.minH && c.axis != AxisX && r.y + newH <= c.limitation.maxBottom;
      Rect(if horizontal then newX else r.x, r.y,
           if horizontal then newW else r.w, if vertical then newH else r.h)
  }

  /** Left edge: moves the left edge only. */
  function ResizeML(r: Rect, c: Constraints, dx: int, dy: int): (r': Rect)
    ensures Decided(r, r', Proposed(MiddleLeft, r, dx, dy), c, c.isResizable)
    ensures Preserves(r, r', c)
    ensures AxisLocked(r, r', c.axis)
    ensures r'.x + r'.w == r.x + r.w && r'.y == r.y && r'.h == r.h
    ensures !c.isResizable || dx == 0 ==> r' == r
  {
    if !c.isResizable then r
    else
      var newX := r.x + dx;
      var newW := r.x + r.w - newX;
      var horizontal := newW >= c.minW && c.axis != AxisY && c.limitation.minX <= newX;
      Rect(if horizontal then newX else r.x, r.y, if horizontal then newW else r.w, r.h)
  }

  /** The handle table: the rule each handle drives. */
  function Step(hd: Handle, r: Rect, c: Constraints, dx: int, dy: int): (r': Rect)
    ensures Decided(r, r', Proposed(hd, r, dx, dy), c, Enabled(hd, c))
    ensures Preserves(r, r', c)
    ensures AxisLocked(r, r', c.axis)
    ensures !Enabled(hd, c) || (dx == 0 && dy == 0) ==> r' == r
  {
    match hd
    case Center       => Drag(r, c, dx, dy)
    case TopLeft      => ResizeTL(r, c, dx, dy)
    case TopMiddle    => ResizeTM(r, c, dx, dy)
    case TopRight     => ResizeTR(r, c, dx, dy)
    case MiddleRight  => ResizeMR(r, c, dx, dy)
    case BottomRight  => ResizeBR(r, c, dx, dy)
    case BottomMiddle => ResizeBM(r, c, dx, dy)
    case BottomLeft   => ResizeBL(r, c, dx, dy)
    case MiddleLeft   => ResizeML(r, c, dx, dy)
  }

  // ---------------------------------------------------------------------------
  // Properties of the handle table as a whole
  // ---------------------------------------------------------------------------

  /** Two consequences of the exact outcome: a step never truncates (per axis the
      result is the old pair or the proposed pair), and a proposal that obeys every
      constraint of its axis is committed whenever the gate and the axis lock allow. */
  lemma StepCommitLaws(hd: Handle, r: Rect, c: Constraints, dx: int, dy: int)
    ensures AllOrNothing(r, Step(hd, r, c, dx, dy), Proposed(hd, r, dx, dy))
    ensures CommitsWhenFits(Step(hd, r, c, dx, dy), Proposed(hd, r, dx, dy), c, Enabled(hd, c))
  {
  }

  /** The horizontal outcome of a step does not depend on the vertical delta, and
      the vertical outcome does not depend on the horizontal delta. */
  lemma AxesIndependent(hd: Handle, r: Rect, c: Constraints, dx: int, dy: int)
    ensures Step(hd, r, c, dx, dy).x == Step(hd, r, c, dx, 0).x
    ensures Step(hd, r, c, dx, dy).w == Step(hd, r, c, dx, 0).w
    ensures Step(hd, r, c, dx, dy).y == Step(hd, r, c, 0, dy).y
    ensures Step(hd, r, c, dx, dy).h == Step(hd, r, c, 0, dy).h
  {
  }

  // ---------------------------------------------------------------------------
  // Worked examples
  // ---------------------------------------------------------------------------

  const ExampleConstraints := Constraints(50, 50, AxisAll, Limitation(0, 0, 300, 300), true, true)

  /** Bottom-right by [50, 50] grows the block; left edge by [40, 0] then shrinks it
      from the left while the right edge stays at 150. */
  lemma GrowThenShrinkExample()
    ensures Step(BottomRight, Rect(0, 0, 100, 100), ExampleConstraints, 50, 50) == Rect(0, 0, 150, 150)
    ensures Step(MiddleLeft, Rect(0, 0, 150, 150), ExampleConstraints, 40, 0) == Rect(40, 0, 110, 150)
  {
  }

  /** Top-left by [-10, -10] would push both moved edges past the limitation: both
      components are rejected and the block stays where it is. */
  lemma TopLeftOutOfBoundsExample()
    ensures Step(TopLeft, Rect(0, 0, 150, 150), ExampleConstraints, -10, -10) == Rect(0, 0, 150, 150)
  {
  }

  /** Right edge by [-60, 0] would leave a width of 40 < 50: rejected. */
  lemma RightEdgeBelowMinimumExample()
    ensures Step(MiddleRight, Rect(0, 0, 100, 100), ExampleConstraints, -60, 0) == Rect(0, 0, 100, 100)
  {
  }
}
