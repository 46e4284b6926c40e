/**
 The block component itself: the state cells x, y, w, h and isSelected, updated in
 place by the handlers the handles call.  Each handler reads the state as it was
 when the handler was created (the pre-step state) and writes at most one new
 position/size pair per axis.  The callbacks are represented by the log of
 reports they would receive.
 */
module Block {
  import opened Geometry
  import opened Lifecycle
  import opened Placement

  class DragResizeBlock {
    var x: int
    var y: int
    var w: int
    var h: int
    var isSelected: bool
    /** Every report made to a registered callback, in order. */
    var log: seq<Report>
    const props: Props

    function Frame(): Rect
      reads this
    {
      Rect(x, y, w, h)
    }

    function State(): BlockState
      reads this
    {
      BlockState(Frame(), isSelected, log)
    }

    /** The object invariant: the minimum size holds. */
    ghost predicate Valid()
      reads this
    {
      MinSize(Frame(), props.constraints)
    }

    /** A width or height below the minimum is raised to the minimum. */
    constructor (x0: int, y0: int, w0: int, h0: int, props0: Props)
      ensures props == props0
      ensures State() == Initial(x0, y0, w0, h0, props0)
      ensures Valid()
    {
      x := x0;
      y := y0;
      w := if w0 < props0.constraints.minW then props0.constraints.minW else w0;
      h := if h0 < props0.constraints.minH then props0.constraints.minH else h0;
      isSelected := false;
      log := [];
      props := props0;
    }

    /** Appends a report of the position (rx, ry) if `cb` is registered. */
    method Invoke(cb: Callback, rx: int, ry: int)
      modifies this`log
      ensures log == old(log) + Notify(props, cb, rx, ry)
    {
      if cb in props.registered {
        log := log + [Report(cb, rx, ry)];
      }
    }

    method OnDragStart()
      requires Valid()
      modifies this
      ensures Valid()
      ensures isSelected && Frame() == old(Frame())
      ensures State() == Apply(old(State()), props, Start(Center))
    {
      isSelected := true;
      Invoke(DragStarted, x, y);
    }

    method OnDrag(dx: int, dy: int)
      requires Valid()
      modifies this
      ensures Valid()
      ensures Frame() == Drag(old(Frame()), props.constraints, dx, dy)
      ensures State() == Apply(old(State()), props, Move(Center, dx, dy))
    {
      var c := props.constraints;
      if !c.isDraggable {
        return;
      }
      var x0, y0 := x, y;
      var newX := x0 + dx;
      var newY := y0 + dy;
      if c.axis != AxisY {
        if c.limitation.minX <= newX && c.limitation.maxRight >= newX + w {
          x := newX;
        }
      }
      if c.axis != AxisX {
        if c.limitation.minY <= newY && c.limitation.maxBottom >= newY + h {
          y := newY;
        }
      }
      Invoke(Dragged, x0, y0);
    }

    method OnDragEnd()
      requires Valid()
      modifies this
      ensures Valid()
      ensures !isSelected && Frame() == old(Frame())
      ensures State() == Apply(old(State()), props, End(Center))
    {
      isSelected := false;
      Invoke(DragEnded, x, y);
    }

    /** Shared by the eight resize handles. */
    method OnResizeStart()
      requires Valid()
      modifies this
      ensures Valid()
      ensures isSelected && Frame() == old(Frame())
      ensures log == old(log) + Notify(props, ResizeStarted, old(x), old(y))
      ensures forall hd: Handle :: hd != Center ==> State() == Apply(old(State()), props, Start(hd))
    {
      isSelected := true;
      Invoke(ResizeStarted, x, y);
    }

    method OnResizeTL(dx: int, dy: int)
      requires Valid()
      modifies this
      ensures Valid()
      ensures Frame() == ResizeTL(old(Frame()), props.constraints, dx, dy)
      ensures State() == Apply(old(State()), props, Move(TopLeft, dx, dy))
    {
      var c := props.constraints;
      if !c.isResizable {
        return;
      }
      var x0, y0, w0, h0 := x, y, w, h;
      var newX := x0 + dx;
      var newY := y0 + dy;
      var newW := x0 + w0 - newX;
      var newH := y0 + h0 - newY;
      if newW >= c.minW && c.axis != AxisY {
        if c.limitation.minX <= newX {
          w := newW;
          x := newX;
        }
      }
      if newH >= c.minH && c.axis != AxisX {
        if c.limitation.minY <= newY {
          h := newH;
          y := newY;
        }
      }
      Invoke(Resized, x0, y0);
    }

    method OnResizeTM(dx: int, dy: int)
      requires Valid()
      modifies this
      ensures Valid()
      ensures Frame() == ResizeTM(old(Frame()), props.constraints, dx, dy)
      ensures State() == Apply(old(State()), props, Move(TopMiddle, dx, dy))
    {
      var c := props.constraints;
      if !c.isResizable {
        return;
      }
      var x0, y0, h0 := x, y, h;
      var newY := y0 + dy;
      var newH := y0 + h0 - newY;
      if newH >= c.minH && c.axis != AxisX {
        if c.limitation.minY <= newY {
          h := newH;
          y := newY;
        }
      }
      Invoke(Resized, x0, y0);
    }

    method OnResizeTR(dx: int, dy: int)
      requires Valid()
      modifies this
      ensures Valid()
      ensures Frame() == ResizeTR(old(Frame()), props.constraints, dx, dy)
      ensures State() == Apply(old(State()), props, Move(TopRight, dx, dy))
    {
      var c := props.constraints;
      if !c.isResizable {
        return;
      }
      var x0, y0, w0, h0 := x, y, w, h;
      var newY := y0 + dy;
      var newW := w0 + dx;
      var newH := y0 + h0 - newY;
      if newW >= c.minW && c.axis != AxisY {
        if c.limitation.maxRight >= x0 + newW {
          w := newW;
        }
      }
      if newH >= c.minH && c.axis != AxisX {
        if c.limitation.minY <= newY {
          h := newH;
          y := newY;
        }
      }
      Invoke(Resized, x0, y0);
    }

    method OnResizeMR(dx: int, dy: int)
      requires Valid()
      modifies this
      ensures Valid()
      ensures Frame() == ResizeMR(old(Frame()), props.constraints, dx, dy)
      ensures State() == Apply(old(State()), props, Move(MiddleRight, dx, dy))
    {
      var c := props.constraints;
      if !c.isResizable {
        return;
      }
      var x0, y0, w0 := x, y, w;
      var newW := w0 + dx;
      if newW >= c.minW && c.axis != AxisY {
        if c.limitation.maxRight >= x0 + newW {
          w := newW;
        }
      }
      Invoke(Resized, x0, y0);
    }

    method OnResizeBR(dx: int, dy: int)
      requires Valid()
      modifies this
      ensures Valid()
      ensures Frame() == ResizeBR(old(Frame()), props.constraints, dx, dy)
      ensures State() == Apply(old(State()), props, Move(BottomRight, dx, dy))
    {
      var c := props.constraints;
      if !c.isResizable {
        return;
      }
      var x0, y0, w0, h0 := x, y, w, h;
      var newW := w0 + dx;
      var newH := h0 + dy;
      if newW >= c.minW && c.axis != AxisY {
        if c.limitation.maxRight >= x0 + newW {
          w := newW;
        }
      }
      if newH >= c.minH && c.axis != AxisX {
        if c.limitation.maxBottom >= y0 + newH {
          h := newH;
        }
      }
      Invoke(Resized, x0, y0);
    }

    method OnResizeBM(dx: int, dy: int)
      requires Valid()
      modifies this
      ensures Valid()
      ensures Frame() == ResizeBM(old(Frame()), props.constraints, dx, dy)
      ensures State() == Apply(old(State()), props, Move(BottomMiddle, dx, dy))
    {
      var c := props.constraints;
      if !c.isResizable {
        return;
      }
      var x0, y0, h0 := x, y, h;
      var newH := h0 + dy;
      if newH >= c.minH && c.axis != AxisX {
        if c.limitation.maxBottom >= y0 + newH {
          h := newH;
        }
      }
      Invoke(Resized, x0, y0);
    }

    method OnResizeBL(dx: int, dy: int)
      requires Valid()
      modifies this
      ensures Valid()
      ensures Frame() == ResizeBL(old(Frame()), props.constraints, dx, dy)
      ensures State() == Apply(old(State()), props, Move(BottomLeft, dx, dy))
    {
      var c := props.constraints;
      if !c.isResizable {
        return;
      }
      var x0, y0, w0, h0 := x, y, w, h;
      var newX := x0 + dx;
      var newW := x0 + w0 - newX;
      var newH := h0 + dy;
      if newW >= c.minW && c.axis != AxisY {
        if c.limitation.minX <= newX {
          w := newW;
          x := newX;
        }
      }
      if newH >= c.minH && c.axis != AxisX {
        if y0 + newH <= c.limitation.maxBottom {
          h := newH;
        }
      }
      Invoke(Resized, x0, y0);
    }

    method OnResizeML(dx: int, dy: int)
      requires Valid()
      modifies this
      ensures Valid()
      ensures Frame() == ResizeML(old(Frame()), props.constraints, dx, dy)
      ensures State() == Apply(old(State()), props, Move(MiddleLeft, dx, dy))
    {
      var c := props.constraints;
      if !c.isResizable {
        return;
      }
      var x0, y0, w0 := x, y, w;
      var newX := x0 + dx;
      var newW := x0 + w0 - newX;
      if newW >= c.minW && c.axis != AxisY {
        if c.limitation.minX <= newX {
          w := newW;
          x := newX;
        }
      }
      Invoke(Resized, x0, y0);
    }

    /** Shared by the eight resize handles. */
    method OnResizeEnd()
      requires Valid()
      modifies this
      ensures Valid()
      ensures !isSelected && Frame() == old(Frame())
      ensures log == old(log) + Notify(props, ResizeEnded, old(x), old(y))
      ensures forall hd: Handle :: hd != Center ==> State() == Apply(old(State()), props, End(hd))
    {
      isSelected := false;
      Invoke(ResizeEnded, x, y);
    }

    /** The stacking priority the block is drawn with. */
    function ZIndex(): (z: int)
      reads this
      ensures isSelected <==> z == props.zIndex + 1
      ensures !isSelected <==> z == props.zIndex
    {
      RenderedZIndex(props.zIndex, isSelected)
    }

    /** Where a handle is drawn inside the block: calculateX of the current width
        and calculateY of the current height.  With a minimum of at least one handle
        size on an axis, the handle lies inside the block on that axis. */
    method ConnectorOffset(hd: Handle) returns (ox: real, oy: real)
      requires Valid()
      ensures ox == CalculateX(hd, w as real) && oy == CalculateY(hd, h as real)
      ensures props.constraints.minW >= 14 ==> 0.0 <= ox <= w as real - ConnectorSize
      ensures props.constraints.minH >= 14 ==> 0.0 <= oy <= h as real - ConnectorSize
    {
      ox := CalculateX(hd, w as real);
      oy := CalculateY(hd, h as real);
    }
  }

  /** A client: a resize gesture on the bottom-right handle grows the block, and the
      callback receives the position from before the step. */
  method GrowExample()
  {
    var b := new DragResizeBlock(0, 0, 100, 100, Props(ExampleConstraints, 1, {Resized}));
    b.OnResizeStart();
    assert b.ZIndex() == 2;
    b.OnResizeBR(50, 50);
    assert b.Frame() == Rect(0, 0, 150, 150);
    assert b.log == [Report(Resized, 0, 0)];
  }

  /** A client: the left edge by [40, 0] shrinks the block from the left; the end of
      the gesture deselects it. */
  method ShrinkExample()
  {
    var b := new DragResizeBlock(0, 0, 150, 150, Props(ExampleConstraints, 1, {Resized}));
    b.OnResizeStart();
    assert b.Frame() == Rect(0, 0, 150, 150);
    b.OnResizeML(40, 0);
    assert b.Frame() == Rect(40, 0, 110, 150);
    b.OnResizeEnd();
    assert !b.isSelected && b.ZIndex() == 1;
    assert b.log == [Report(Resized, 0, 0)];
  }

  /** A client: a right-edge delta that would go below the minimum width is rejected,
      and the callback still receives the position. */
  method RejectedResizeExample()
  {
    var b := new DragResizeBlock(40, 0, 110, 150, Props(ExampleConstraints, 1, {Resized}));
    b.OnResizeMR(-100, 0);
    assert b.Frame() == Rect(40, 0, 110, 150);
    assert b.log == [Report(Resized, 40, 0)];
  }
}
