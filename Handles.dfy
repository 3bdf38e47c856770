/**
  * The eight resize handles of a mind-map node as pure functions of the
  * node's rectangle: their names, where each one sits, which cursor it
  * shows, and what dragging it does to the rectangle (the candidate, and
  * the accept-or-keep rule with the minimum size).
  */
module Handles {
  import opened Geometry
  import opened Wrappers

  /** h1..h3 run along the top, h4/h5 sit on the side midpoints, h6..h8 run along the bottom. */
  datatype HandleId = H1 | H2 | H3 | H4 | H5 | H6 | H7 | H8

  /** The keys of the node's handle dictionary. */
  const HandleNames: set<string> := {"h1", "h2", "h3", "h4", "h5", "h6", "h7", "h8"}

  /** Minimum size a node's rectangle may be resized to. */
  const MinWidth: real := 80.0
  const MinHeight: real := 40.0

  function NameOf(h: HandleId): (n: string)
    ensures n in HandleNames
  {
    match h
    case H1 => "h1" case H2 => "h2" case H3 => "h3" case H4 => "h4"
    case H5 => "h5" case H6 => "h6" case H7 => "h7" case H8 => "h8"
  }

  /** Which handle a name denotes; any other name denotes none. */
  function Parse(name: string): (r: Option<HandleId>)
    ensures r.Some? <==> name in HandleNames
    ensures r.Some? ==> NameOf(r.value) == name
  {
    if name == "h1" then Some(H1)
    else if name == "h2" then Some(H2)
    else if name == "h3" then Some(H3)
    else if name == "h4" then Some(H4)
    else if name == "h5" then Some(H5)
    else if name == "h6" then Some(H6)
    else if name == "h7" then Some(H7)
    else if name == "h8" then Some(H8)
    else None
  }

  lemma ParseNameOf(h: HandleId)
    ensures Parse(NameOf(h)) == Some(h)
  {
  }

  /** The boundaries that dragging a handle moves. */
  function MovedEdges(h: HandleId): set<Edge>
  {
    match h
    case H1 => {TopEdge, LeftEdge}
    case H2 => {TopEdge}
    case H3 => {TopEdge, RightEdge}
    case H4 => {LeftEdge}
    case H5 => {RightEdge}
    case H6 => {BottomEdge, LeftEdge}
    case H7 => {BottomEdge}
    case H8 => {BottomEdge, RightEdge}
  }

  /** The pointer coordinate that a moved boundary takes: x for left/right, y for top/bottom. */
  function PointerCoord(p: Point, e: Edge): real
  {
    if e == LeftEdge || e == RightEdge then p.x else p.y
  }

  // ---------------------------------------------------------------- anchors

  /** Where a handle sits on the rectangle: a corner or an edge midpoint. */
  function Anchor(r: Rect, h: HandleId): Point
  {
    match h
    case H1 => r.TopLeft()
    case H2 => Point(r.Center().x, r.Top())
    case H3 => r.TopRight()
    case H4 => Point(r.Left(), r.Center().y)
    case H5 => Point(r.Right(), r.Center().y)
    case H6 => r.BottomLeft()
    case H7 => Point(r.Center().x, r.Bottom())
    case H8 => r.BottomRight()
  }

  /**
    * Each handle sits on every boundary it moves, and on the centre line of
    * every axis it does not move: the anchor table and the drag table agree.
    */
  lemma AnchorOnMovedEdges(r: Rect, h: HandleId)
    ensures forall e :: e in MovedEdges(h) ==> PointerCoord(Anchor(r, h), e) == r.EdgeAt(e)
    ensures LeftEdge !in MovedEdges(h) && RightEdge !in MovedEdges(h) ==> Anchor(r, h).x == r.Center().x
    ensures TopEdge !in MovedEdges(h) && BottomEdge !in MovedEdges(h) ==> Anchor(r, h).y == r.Center().y
  {
    match h
    case H1 => case H2 => case H3 => case H4 =>
    case H5 => case H6 => case H7 => case H8 =>
  }

  // ---------------------------------------------------------------- cursors

  datatype Cursor = ArrowCursor | SizeFDiagCursor | SizeBDiagCursor | SizeVerCursor | SizeHorCursor

  const CursorTable: map<string, Cursor> := map[
    "h1" := SizeFDiagCursor, "h2" := SizeVerCursor,
    "h3" := SizeBDiagCursor, "h4" := SizeHorCursor,
    "h5" := SizeHorCursor, "h6" := SizeBDiagCursor,
    "h7" := SizeVerCursor, "h8" := SizeFDiagCursor]

  /** The cursor a handle shows: a table lookup, with the arrow for unknown names. */
  function CursorFor(name: string): (c: Cursor)
    ensures c == ArrowCursor <==> name !in HandleNames
  {
    if name in CursorTable then CursorTable[name] else ArrowCursor
  }

  /** The resize cursor that matches a set of moved boundaries. */
  function DragCursor(moved: set<Edge>): Cursor
  {
    if moved == {TopEdge} || moved == {BottomEdge} then SizeVerCursor
    else if moved == {LeftEdge} || moved == {RightEdge} then SizeHorCursor
    else if moved == {TopEdge, LeftEdge} || moved == {BottomEdge, RightEdge} then SizeFDiagCursor
    else if moved == {TopEdge, RightEdge} || moved == {BottomEdge, LeftEdge} then SizeBDiagCursor
    else ArrowCursor
  }

  /** Every handle's cursor shows the direction in which dragging it resizes the node. */
  lemma CursorMatchesDrag(h: HandleId)
    ensures CursorFor(NameOf(h)) == DragCursor(MovedEdges(h))
  {
    match h
    case H1 => case H2 => case H3 => case H4 =>
    case H5 => case H6 =>
      assert MovedEdges(H6) != {TopEdge, RightEdge} by { assert LeftEdge in MovedEdges(H6); }
    case H7 =>
    case H8 =>
      assert MovedEdges(H8) != {TopEdge, LeftEdge} by { assert RightEdge in MovedEdges(H8); }
  }

  // ---------------------------------------------------------------- resizing

  /**
    * The rectangle a drag of handle h to pointer p proposes: the boundaries
    * the handle moves go to the pointer's coordinate, the others stay put,
    * and an unknown handle proposes the rectangle unchanged.
    */
  function Candidate(r: Rect, h: Option<HandleId>, p: Point): (c: Rect)
    ensures h.None? ==> c == r
    ensures h.Some? ==> forall e :: c.EdgeAt(e) == if e in MovedEdges(h.value) then PointerCoord(p, e) else r.EdgeAt(e)
  {
    match h
    case None => r
    case Some(H8) => r.SetBottomRight(p)
    case Some(H5) => r.SetRight(p.x)
    case Some(H7) => r.SetBottom(p.y)
    case Some(H1) => r.SetTopLeft(p)
    case Some(H4) => r.SetLeft(p.x)
    case Some(H2) => r.SetTop(p.y)
    case Some(H3) => r.SetTopRight(p)
    case Some(H6) => r.SetBottomLeft(p)
  }

  /** The rectangle is at least the minimum size (which, for a non-negative minimum, also means it is not inverted). */
  predicate Fits(r: Rect, minW: real, minH: real)
  {
    r.w >= minW && r.h >= minH
  }

  /**
    * One resize step: the candidate is stored (normalised) if it is at least
    * the minimum size; otherwise the rectangle is kept as it was. Too-small
    * candidates are rejected, never clamped.
    */
  function Resize(r: Rect, h: Option<HandleId>, p: Point, minW: real, minH: real): (s: Rect)
    ensures !Fits(Candidate(r, h, p), minW, minH) ==> s == r
    ensures 0.0 <= minW && 0.0 <= minH && Fits(Candidate(r, h, p), minW, minH) ==> s == Candidate(r, h, p)
    ensures s == r || (Fits(s, minW, minH) && s.w >= 0.0 && s.h >= 0.0)
  {
    var c := Candidate(r, h, p);
    if Fits(c, minW, minH) then c.Normalized() else r
  }

  /** Dragging a handle onto the point where it already sits changes nothing. */
  lemma DragToOwnAnchor(r: Rect, h: HandleId, minW: real, minH: real)
    requires 0.0 <= minW && 0.0 <= minH
    ensures Resize(r, Some(h), Anchor(r, h), minW, minH) == r
  {
    AnchorOnMovedEdges(r, h);
    SameEdgesSameRect(Candidate(r, Some(h), Anchor(r, h)), r);
  }

  /**
    * A pointer displaced by d from a handle's anchor moves each boundary the
    * handle moves by exactly d along that boundary's axis, and no other.
    */
  lemma DragByOffset(r: Rect, h: HandleId, d: Point)
    ensures forall e ::
              Candidate(r, Some(h), Anchor(r, h).Plus(d)).EdgeAt(e) ==
              r.EdgeAt(e) + (if e in MovedEdges(h) then PointerCoord(d, e) else 0.0)
  {
    AnchorOnMovedEdges(r, h);
  }

  /**
    * Resizing again with the same handle to the same point in the node's
    * coordinates leaves the rectangle where the first resize put it.
    */
  lemma ResizeIdempotent(r: Rect, h: Option<HandleId>, p: Point, minW: real, minH: real)
    requires 0.0 <= minW && 0.0 <= minH
    ensures Resize(Resize(r, h, p, minW, minH), h, p, minW, minH) == Resize(r, h, p, minW, minH)
  {
    var c := Candidate(r, h, p);
    if Fits(c, minW, minH) && h.Some? {
      SameEdgesSameRect(Candidate(c, h, p), c);
    }
  }

  // ---------------------------------------------------------------- drags

  /** One mouse-move event delivered to the handle called name, at point at in the node's coordinates. */
  datatype Move = Move(name: string, at: Point)

  /** The rectangle after a sequence of mouse-move events, each handled by one resize step. */
  function Drag(r: Rect, moves: seq<Move>, minW: real, minH: real): Rect
    decreases |moves|
  {
    if moves == [] then r
    else Drag(Resize(r, Parse(moves[0].name), moves[0].at, minW, minH), moves[1..], minW, minH)
  }

  /** A rectangle that starts at least the minimum size stays so through any drag. */
  lemma {:induction false} DragKeepsMinimum(r: Rect, moves: seq<Move>, minW: real, minH: real)
    requires 0.0 <= minW && 0.0 <= minH && Fits(r, minW, minH)
    ensures Fits(Drag(r, moves, minW, minH), minW, minH)
    decreases |moves|
  {
    if moves != [] {
      DragKeepsMinimum(Resize(r, Parse(moves[0].name), moves[0].at, minW, minH), moves[1..], minW, minH);
    }
  }

  /** Whether the event named name moves boundary e. */
  predicate MovesEdge(name: string, e: Edge)
  {
    Parse(name).Some? && e in MovedEdges(Parse(name).value)
  }

  /**
    * A boundary that no handle of the drag moves stays where it was: a drag
    * of h5, h7 and h8 alone keeps the top-left corner pinned, and so on.
    */
  lemma {:induction false} DragPinsUntouchedEdge(r: Rect, moves: seq<Move>, e: Edge, minW: real, minH: real)
    requires 0.0 <= minW && 0.0 <= minH
    requires forall i :: 0 <= i < |moves| ==> !MovesEdge(moves[i].name, e)
    ensures Drag(r, moves, minW, minH).EdgeAt(e) == r.EdgeAt(e)
    decreases |moves|
  {
    if moves != [] {
      var s := Resize(r, Parse(moves[0].name), moves[0].at, minW, minH);
      assert !MovesEdge(moves[0].name, e);
      assert s.EdgeAt(e) == r.EdgeAt(e);
      DragPinsUntouchedEdge(s, moves[1..], e, minW, minH);
    }
  }
}
