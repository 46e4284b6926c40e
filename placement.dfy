/**
 Where each handle is drawn, relative to the block's top-left corner, given the
 block's width and height.  Handles are squares of side `ConnectorSize`.
 Offsets are real numbers because the edge-middle handles use a division by 2.
 */
module Placement {
  import opened Geometry

  const ConnectorSize: real := 14.0

  /** The horizontal offset of a handle (calculateX). Corner and edge handles sit flush
      with the left or right side, or centred on the width. */
  function CalculateX(hd: Handle, width: real): (ox: real)
    ensures width >= ConnectorSize ==> 0.0 <= ox <= width - ConnectorSize
  {
    match hd
    case TopLeft | BottomLeft | MiddleLeft => 0.0
    case TopRight | MiddleRight | BottomRight => width - ConnectorSize
    case TopMiddle | BottomMiddle | Center => width / 2.0 - ConnectorSize / 2.0
  }

  /** The vertical offset of a handle (calculateY). */
  function CalculateY(hd: Handle, height: real): (oy: real)
    ensures height >= ConnectorSize ==> 0.0 <= oy <= height - ConnectorSize
  {
    match hd
    case TopLeft | TopMiddle | TopRight => 0.0
    case BottomLeft | BottomMiddle | BottomRight => height - ConnectorSize
    case MiddleRight | MiddleLeft | Center => height / 2.0 - ConnectorSize / 2.0
  }

  /** Left-side handles start flush with the left side, top handles with the top. */
  lemma NearHandlesFlush(width: real, height: real)
    ensures forall hd: Handle :: hd in {TopLeft, MiddleLeft, BottomLeft} ==> CalculateX(hd, width) == 0.0
    ensures forall hd: Handle :: hd in {TopLeft, TopMiddle, TopRight} ==> CalculateY(hd, height) == 0.0
  {
  }

  /** Right-side handles end flush with the right side, bottom handles with the bottom. */
  lemma FarHandlesFlush(width: real, height: real)
    ensures forall hd: Handle :: hd in {TopRight, MiddleRight, BottomRight} ==>
              CalculateX(hd, width) + ConnectorSize == width
    ensures forall hd: Handle :: hd in {BottomLeft, BottomMiddle, BottomRight} ==>
              CalculateY(hd, height) + ConnectorSize == height
  {
  }

  /** Each edge-middle handle sits halfway between the two corner handles of its edge,
      and the centre handle is at (top-middle x, middle-left y). */
  lemma MiddleHandlesAreMidpoints(width: real, height: real)
    ensures CalculateX(TopMiddle, width) == (CalculateX(TopLeft, width) + CalculateX(TopRight, width)) / 2.0
    ensures CalculateX(BottomMiddle, width) == (CalculateX(BottomLeft, width) + CalculateX(BottomRight, width)) / 2.0
    ensures CalculateY(MiddleLeft, height) == (CalculateY(TopLeft, height) + CalculateY(BottomLeft, height)) / 2.0
    ensures CalculateY(MiddleRight, height) == (CalculateY(TopRight, height) + CalculateY(BottomRight, height)) / 2.0
    ensures CalculateX(Center, width) == CalculateX(TopMiddle, width)
    ensures CalculateY(Center, height) == CalculateY(MiddleLeft, height)
  {
  }

  /** When the minimum size is at least one handle, every handle of a rectangle that
      has the minimum size lies inside it; by RunPreservesInvariants this holds
      after every gesture too. */
  lemma HandlesInsideBlock(r: Rect, c: Constraints, hd: Handle)
    requires MinSize(r, c) && c.minW >= 14 && c.minH >= 14
    ensures 0.0 <= CalculateX(hd, r.w as real) <= r.w as real - ConnectorSize
    ensures 0.0 <= CalculateY(hd, r.h as real) <= r.h as real - ConnectorSize
  {
  }
}
