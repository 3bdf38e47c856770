/**
  * Points and floating-point rectangles in an item's local coordinates,
  * with the semantics of the rectangle setters that the node's resize
  * logic relies on (left/top/right/bottom setters, corner setters and
  * normalisation). Coordinates are reals: the resize code only adds,
  * subtracts, halves and compares them.
  */
module Geometry {

  datatype Point = Point(x: real, y: real) {
    function Plus(d: Point): Point { Point(x + d.x, y + d.y) }
  }

  /** The four boundaries of a rectangle. */
  datatype Edge = LeftEdge | TopEdge | RightEdge | BottomEdge

  /**
    * A rectangle stored as its origin (x, y) and its size (w, h); the size
    * may be negative, in which case the rectangle is inverted.
    */
  datatype Rect = Rect(x: real, y: real, w: real, h: real) {

    function Left(): real { x }
    function Top(): real { y }
    function Right(): real { x + w }
    function Bottom(): real { y + h }

    function TopLeft(): Point { Point(Left(), Top()) }
    function TopRight(): Point { Point(Right(), Top()) }
    function BottomLeft(): Point { Point(Left(), Bottom()) }
    function BottomRight(): Point { Point(Right(), Bottom()) }
    function Center(): Point { Point(x + w / 2.0, y + h / 2.0) }

    /** The coordinate of one boundary. */
    function EdgeAt(e: Edge): real {
      match e
      case LeftEdge => Left()
      case TopEdge => Top()
      case RightEdge => Right()
      case BottomEdge => Bottom()
    }

    /** Moves the left edge to v; the right edge stays where it was. */
    function SetLeft(v: real): (r: Rect)
      ensures r.Left() == v && r.Right() == Right()
      ensures r.Top() == Top() && r.Bottom() == Bottom()
    {
      Rect(v, y, w - (v - x), h)
    }

    /** Moves the top edge to v; the bottom edge stays where it was. */
    function SetTop(v: real): (r: Rect)
      ensures r.Top() == v && r.Bottom() == Bottom()
      ensures r.Left() == Left() && r.Right() == Right()
    {
      Rect(x, v, w, h - (v - y))
    }

    /** Moves the right edge to v by changing only the width. */
    function SetRight(v: real): (r: Rect)
      ensures r.Right() == v && r.Left() == Left()
      ensures r.Top() == Top() && r.Bottom() == Bottom()
    {
      Rect(x, y, v - x, h)
    }

    /** Moves the bottom edge to v by changing only the height. */
    function SetBottom(v: real): (r: Rect)
      ensures r.Bottom() == v && r.Top() == Top()
      ensures r.Left() == Left() && r.Right() == Right()
    {
      Rect(x, y, w, v - y)
    }

    /** Moves the top-left corner to p; the bottom-right corner stays where it was. */
    function SetTopLeft(p: Point): (r: Rect)
      ensures r.TopLeft() == p && r.BottomRight() == BottomRight()
    {
      SetLeft(p.x).SetTop(p.y)
    }

    /** Moves the top-right corner to p; the bottom-left corner stays where it was. */
    function SetTopRight(p: Point): (r: Rect)
      ensures r.TopRight() == p && r.BottomLeft() == BottomLeft()
    {
      SetTop(p.y).SetRight(p.x)
    }

    /** Moves the bottom-left corner to p; the top-right corner stays where it was. */
    function SetBottomLeft(p: Point): (r: Rect)
      ensures r.BottomLeft() == p && r.TopRight() == TopRight()
    {
      SetLeft(p.x).SetBottom(p.y)
    }

    /** Moves the bottom-right corner to p; the top-left corner stays where it was. */
    function SetBottomRight(p: Point): (r: Rect)
      ensures r.BottomRight() == p && r.TopLeft() == TopLeft()
    {
      SetRight(p.x).SetBottom(p.y)
    }

    /**
      * The same area with a non-negative size: a negative width swaps the
      * left and right edges, a negative height swaps top and bottom.
      */
    function Normalized(): (r: Rect)
      ensures r.w >= 0.0 && r.h >= 0.0
      ensures r.Left() == Min(Left(), Right()) && r.Right() == Max(Left(), Right())
      ensures r.Top() == Min(Top(), Bottom()) && r.Bottom() == Max(Top(), Bottom())
      ensures w >= 0.0 && h >= 0.0 ==> r == this
    {
      var (nx, nw) := if w < 0.0 then (x + w, -w) else (x, w);
      var (ny, nh) := if h < 0.0 then (y + h, -h) else (y, h);
      Rect(nx, ny, nw, nh)
    }
  }

  function Min(a: real, b: real): real { if a <= b then a else b }
  function Max(a: real, b: real): real { if a <= b then b else a }

  /** A rectangle is determined by its four boundaries. */
  lemma SameEdgesSameRect(r: Rect, s: Rect)
    requires forall e :: r.EdgeAt(e) == s.EdgeAt(e)
    ensures r == s
  {
    assert r.EdgeAt(LeftEdge) == s.EdgeAt(LeftEdge);
    assert r.EdgeAt(TopEdge) == s.EdgeAt(TopEdge);
    assert r.EdgeAt(RightEdge) == s.EdgeAt(RightEdge);
    assert r.EdgeAt(BottomEdge) == s.EdgeAt(BottomEdge);
  }
}
