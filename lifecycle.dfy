/**
 The gesture lifecycle of a block: start, move and end events for a handle, the
 selection flag they toggle, and the reports handed to the user's callbacks.

 A block's whole state is its rectangle, its selection flag and the log of
 reports made so far (a report is the position handed to a callback).
 */
module Lifecycle {
  import opened Geometry

  /** The user callbacks a block may have registered: onDragStart, onDrag,
      onDragEnd, onResizeStart, onResize and onResizeEnd. */
  datatype Callback = DragStarted | Dragged | DragEnded | ResizeStarted | Resized | ResizeEnded

  /** The position `[x, y]` handed to one callback. */
  datatype Report = Report(callback: Callback, x: int, y: int)

  /** The configuration of a block: its constraints, its stacking priority and
      the callbacks that are registered (not null). */
  datatype Props = Props(constraints: Constraints, zIndex: int, registered: set<Callback>)

  datatype BlockState = BlockState(rect: Rect, isSelected: bool, log: seq<Report>)

  /** One event of a gesture on one handle; a move carries the delta `[dx, dy]`. */
  datatype Event = Start(hd: Handle) | Move(hd: Handle, dx: int, dy: int) | End(hd: Handle)

  /** The state of a new block: size floored to the minimum, not selected, nothing reported. */
  function Initial(x: int, y: int, w: int, h: int, p: Props): (s: BlockState)
    ensures s.rect.x == x && s.rect.y == y
    ensures MinSize(s.rect, p.constraints)
    ensures w >= p.constraints.minW ==> s.rect.w == w
    ensures h >= p.constraints.minH ==> s.rect.h == h
    ensures s.rect.w == w || s.rect.w == p.constraints.minW
    ensures s.rect.h == h || s.rect.h == p.constraints.minH
    ensures !s.isSelected && s.log == []
  {
    BlockState(InitialRect(x, y, w, h, p.constraints.minW, p.constraints.minH), false, [])
  }

  /** The callback an event is reported to: the centre handle reports to the drag
      callbacks, the eight resize handles share the resize callbacks. */
  function EventCallback(e: Event): (cb: Callback)
    ensures e.hd == Center <==> cb in {DragStarted, Dragged, DragEnded}
    ensures e.Start? <==> cb in {DragStarted, ResizeStarted}
    ensures e.End? <==> cb in {DragEnded, ResizeEnded}
  {
    match e
    case Start(hd) => if hd == Center then DragStarted else ResizeStarted
    case Move(hd, _, _) => if hd == Center then Dragged else Resized
    case End(hd) => if hd == Center then DragEnded else ResizeEnded
  }

  /** What calling `cb` with the position (x, y) adds to the log: one report if
      `cb` is registered, nothing otherwise. */
  function Notify(p: Props, cb: Callback, x: int, y: int): (r: seq<Report>)
    ensures cb in p.registered <==> r == [Report(cb, x, y)]
    ensures cb !in p.registered <==> r == []
  {
    if cb in p.registered then [Report(cb, x, y)] else []
  }

  /** One event.  A start selects the block, an end deselects it; neither changes
      the geometry.  A move on a gated-off handle is a complete no-op; otherwise
      the handle's rule gives the new rectangle, and the report carries the
      position read BEFORE the step. */
  function Apply(s: BlockState, p: Props, e: Event): (s': BlockState)
    ensures e.Start? ==> s'.isSelected && s'.rect == s.rect
    ensures e.End? ==> !s'.isSelected && s'.rect == s.rect
    ensures e.Move? ==> s'.isSelected == s.isSelected
    ensures e.Move? ==> Decided(s.rect, s'.rect, Proposed(e.hd, s.rect, e.dx, e.dy), p.constraints,
                               Enabled(e.hd, p.constraints))
    ensures Preserves(s.rect, s'.rect, p.constraints) && AxisLocked(s.rect, s'.rect, p.constraints.axis)
    ensures EventCallback(e) in p.registered && (e.Move? ==> Enabled(e.hd, p.constraints))
            <==> s'.log == s.log + [Report(EventCallback(e), s.rect.x, s.rect.y)]
    ensures EventCallback(e) !in p.registered || (e.Move? && !Enabled(e.hd, p.constraints))
            <==> s'.log == s.log
  {
    match e
    case Start(hd) => BlockState(s.rect, true, s.log + Notify(p, EventCallback(e), s.rect.x, s.rect.y))
    case Move(hd, dx, dy) =>
      if !Enabled(hd, p.constraints) then s
      else BlockState(Step(hd, s.rect, p.constraints, dx, dy), s.isSelected,
                      s.log + Notify(p, EventCallback(e), s.rect.x, s.rect.y))
    case End(hd) => BlockState(s.rect, false, s.log + Notify(p, EventCallback(e), s.rect.x, s.rect.y))
  }

  /** A stream of events, processed strictly in order.  Reports are only ever
      appended, at most one per event. */
  function Run(s: BlockState, p: Props, es: seq<Event>): (s': BlockState)
    ensures s.log <= s'.log
    ensures |s'.log| <= |s.log| + |es|
    decreases |es|
  {
    if es == [] then s else Run(Apply(s, p, es[0]), p, es[1..])
  }

  /** The stacking priority used when the block is drawn: one higher while selected. */
  function RenderedZIndex(zIndex: int, isSelected: bool): (z: int)
    ensures isSelected <==> z == zIndex + 1
    ensures !isSelected <==> z == zIndex
  {
    if isSelected then zIndex + 1 else zIndex
  }

  // ---------------------------------------------------------------------------
  // One event
  // ---------------------------------------------------------------------------

  /** Start and end hooks set and clear the selection and leave the geometry alone;
      what they report is the position at call time. */
  lemma HooksToggleSelection(s: BlockState, p: Props, hd: Handle)
    ensures Apply(s, p, Start(hd)).isSelected && Apply(s, p, Start(hd)).rect == s.rect
    ensures !Apply(s, p, End(hd)).isSelected && Apply(s, p, End(hd)).rect == s.rect
    ensures EventCallback(Start(hd)) in p.registered ==>
              Apply(s, p, Start(hd)).log == s.log + [Report(EventCallback(Start(hd)), s.rect.x, s.rect.y)]
    ensures EventCallback(End(hd)) in p.registered ==>
              Apply(s, p, End(hd)).log == s.log + [Report(EventCallback(End(hd)), s.rect.x, s.rect.y)]
    ensures EventCallback(Start(hd)) !in p.registered ==> Apply(s, p, Start(hd)).log == s.log
    ensures EventCallback(End(hd)) !in p.registered ==> Apply(s, p, End(hd)).log == s.log
  {
  }

  /** A move that commits reports where the block WAS, not where it now is: a drag of
      [10, 0] from (0, 0) leaves the block at (10, 0) and reports (0, 0). */
  lemma MoveReportsPreStepPosition()
    ensures var p := Props(ExampleConstraints, 1, {Dragged});
            var s := BlockState(Rect(0, 0, 100, 100), true, []);
            var s' := Apply(s, p, Move(Center, 10, 0));
            s'.rect == Rect(10, 0, 100, 100) && s'.log == [Report(Dragged, 0, 0)]
  {
  }

  // ---------------------------------------------------------------------------
  // Streams of events
  // ---------------------------------------------------------------------------

  /** Processing a + b is processing a, then b. */
  lemma {:induction false} RunAppend(s: BlockState, p: Props, a: seq<Event>, b: seq<Event>)
    ensures Run(s, p, a + b) == Run(Run(s, p, a), p, b)
    decreases |a|
  {
    if a == [] {
      assert a + b == b;
    } else {
      assert (a + b)[0] == a[0];
      assert (a + b)[1..] == a[1..] + b;
      RunAppend(Apply(s, p, a[0]), p, a[1..], b);
    }
  }

  /** After any sequence of events the minimum size still holds, and a rectangle
      inside the limitation on an axis stays inside it on that axis. */
  lemma {:induction false} RunPreservesInvariants(s: BlockState, p: Props, es: seq<Event>)
    ensures Preserves(s.rect, Run(s, p, es).rect, p.constraints)
    decreases |es|
  {
    if es != [] {
      var s1 := Apply(s, p, es[0]);
      RunPreservesInvariants(s1, p, es[1..]);
    }
  }

  /** With axis "x" no sequence of events changes y or h; with axis "y" none changes x or w. */
  lemma {:induction false} RunAxisLocked(s: BlockState, p: Props, es: seq<Event>)
    ensures AxisLocked(s.rect, Run(s, p, es).rect, p.constraints.axis)
    decreases |es|
  {
    if es != [] {
      RunAxisLocked(Apply(s, p, es[0]), p, es[1..]);
    }
  }

  /** Resizing disabled: no sequence of events changes the size. Dragging and
      resizing both disabled: no sequence changes the rectangle at all. */
  lemma {:induction false} RunDisabled(s: BlockState, p: Props, es: seq<Event>)
    ensures !p.constraints.isResizable ==>
              Run(s, p, es).rect.w == s.rect.w && Run(s, p, es).rect.h == s.rect.h
    ensures !p.constraints.isResizable && !p.constraints.isDraggable ==> Run(s, p, es).rect == s.rect
    decreases |es|
  {
    if es != [] {
      RunDisabled(Apply(s, p, es[0]), p, es[1..]);
    }
  }

  predicate NullDeltas(es: seq<Event>) {
    forall i :: 0 <= i < |es| && es[i].Move? ==> es[i].dx == 0 && es[i].dy == 0
  }

  /** Null deltas never change the rectangle, whatever the handles. */
  lemma {:induction false} RunNullDeltas(s: BlockState, p: Props, es: seq<Event>)
    requires NullDeltas(es)
    ensures Run(s, p, es).rect == s.rect
    decreases |es|
  {
    if es != [] {
      assert NullDeltas(es[1..]) by {
        forall i | 0 <= i < |es[1..]| && es[1..][i].Move?
          ensures es[1..][i].dx == 0 && es[1..][i].dy == 0
        {
          assert es[1..][i] == es[i + 1];
        }
      }
      RunNullDeltas(Apply(s, p, es[0]), p, es[1..]);
    }
  }

  predicate OnlyMoves(es: seq<Event>) {
    forall i :: 0 <= i < |es| ==> es[i].Move?
  }

  /** Moves never touch the selection flag. */
  lemma {:induction false} RunMovesKeepSelection(s: BlockState, p: Props, es: seq<Event>)
    requires OnlyMoves(es)
    ensures Run(s, p, es).isSelected == s.isSelected
    decreases |es|
  {
    if es != [] {
      assert OnlyMoves(es[1..]) by {
        forall i | 0 <= i < |es[1..]| ensures es[1..][i].Move? {
          assert es[1..][i] == es[i + 1];
        }
      }
      RunMovesKeepSelection(Apply(s, p, es[0]), p, es[1..]);
    }
  }

  /** In a gesture start, moves*, end the block is selected after the start and after
      every move, and not selected after the end. */
  lemma GestureSelection(s: BlockState, p: Props, hd: Handle, moves: seq<Event>)
    requires OnlyMoves(moves)
    ensures forall k :: 0 <= k <= |moves| ==> Run(s, p, [Start(hd)] + moves[..k]).isSelected
    ensures !Run(s, p, [Start(hd)] + moves + [End(hd)]).isSelected
  {
    var s1 := Apply(s, p, Start(hd));
    assert Run(s, p, [Start(hd)]) == s1 by {
      assert [Start(hd)][1..] == [];
    }
    forall k | 0 <= k <= |moves|
      ensures Run(s, p, [Start(hd)] + moves[..k]).isSelected
    {
      RunAppend(s, p, [Start(hd)], moves[..k]);
      assert OnlyMoves(moves[..k]) by {
        forall i | 0 <= i < |moves[..k]| ensures moves[..k][i].Move? {
          assert moves[..k][i] == moves[i];
        }
      }
      RunMovesKeepSelection(s1, p, moves[..k]);
    }
    var sm := Run(s, p, [Start(hd)] + moves);
    RunAppend(s, p, [Start(hd)] + moves, [End(hd)]);
    assert Run(sm, p, [End(hd)]) == Apply(sm, p, End(hd)) by {
      assert [End(hd)][1..] == [];
    }
  }

  /** Both gates open and every callback registered. */
  predicate AllReported(p: Props) {
    && p.registered == {DragStarted, Dragged, DragEnded, ResizeStarted, Resized, ResizeEnded}
    && p.constraints.isDraggable && p.constraints.isResizable
  }

  /** Reports are only ever appended, at most one per event, and none is dropped or
      reordered: with every callback registered and both gates open, event i of the
      stream adds exactly one report, to that event's callback, at position i. */
  lemma {:induction false} RunReports(s: BlockState, p: Props, es: seq<Event>)
    ensures s.log <= Run(s, p, es).log
    ensures |Run(s, p, es).log| <= |s.log| + |es|
    ensures AllReported(p) ==> |Run(s, p, es).log| == |s.log| + |es|
    ensures AllReported(p) ==>
              forall i :: 0 <= i < |es| ==> Run(s, p, es).log[|s.log| + i].callback == EventCallback(es[i])
    decreases |es|
  {
    if es != [] {
      var s1 := Apply(s, p, es[0]);
      RunReports(s1, p, es[1..]);
      if AllReported(p) {
        forall i | 0 <= i < |es|
          ensures Run(s, p, es).log[|s.log| + i].callback == EventCallback(es[i])
        {
          if i > 0 {
            assert es[1..][i - 1] == es[i];
          }
        }
      }
    }
  }
}
