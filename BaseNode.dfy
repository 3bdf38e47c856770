/**
  * The mind-map node item: a rectangle in the node's own coordinates, its
  * position on the canvas, the minimum size, and the eight handle items it
  * owns. Resizing, repositioning the handles, showing and hiding them on
  * selection, and refreshing the connections attached to a node when it
  * moves are methods that update this state in place.
  */
module BaseNode {
  import opened Geometry
  import opened Handles
  import opened Wrappers

  /** A resize handle: a child item of its node, positioned in the node's coordinates. */
  class Handle {
    const parentNode: MindMapNode
    const posName: string
    const cursor: Cursor
    var pos: Point
    var visible: bool

    constructor (parent: MindMapNode, name: string)
      ensures parentNode == parent && posName == name
      ensures cursor == CursorFor(name)
      ensures pos == Point(0.0, 0.0) && visible
    {
      parentNode := parent;
      posName := name;
      cursor := CursorFor(name);
      pos := Point(0.0, 0.0);
      visible := true;
    }

    /** A point in the handle's coordinates, in its node's coordinates (the handle has no transform of its own). */
    function MapToParent(p: Point): Point
      reads this
    {
      pos.Plus(p)
    }

    /**
      * A pointer move while this handle is dragged: the event position is
      * mapped into the node's coordinates and handed to the node's resize.
      * The handle itself does not follow the pointer.
      */
    method MouseMove(eventPos: Point)
      requires parentNode.Valid()
      modifies parentNode`rect, parentNode.handles.Values
      ensures parentNode.Valid()
      ensures parentNode.rect == Resize(old(parentNode.rect), Parse(posName), old(MapToParent(eventPos)), parentNode.minW, parentNode.minH)
      ensures posName in parentNode.handles && parentNode.handles[posName] == this ==>
                parentNode.rect == Resize(old(parentNode.rect), Parse(posName),
                                          Anchor(old(parentNode.rect), Parse(posName).value).Plus(eventPos),
                                          parentNode.minW, parentNode.minH)
      ensures forall n :: n in parentNode.handles ==> parentNode.handles[n].visible == old(parentNode.handles[n].visible)
    {
      var newPos := MapToParent(eventPos);
      parentNode.ResizeLogic(posName, newPos);
    }
  }

  /** What a connection draws: a straight segment between two points of the canvas. */
  datatype Line = Line(p1: Point, p2: Point)

  /** The centre of a node's bounding box in canvas coordinates. */
  function SceneCenter(n: MindMapNode): Point
    reads n
  {
    n.pos.Plus(n.rect.Center())
  }

  /**
    * A connection between two nodes, drawn between their centres. It sits in
    * this module because it and the node class refer to each other.
    */
  class Connection {
    const source: MindMapNode
    const target: MindMapNode
    var line: Line

    constructor (source: MindMapNode, target: MindMapNode)
      ensures this.source == source && this.target == target
      ensures line == Path()
    {
      this.source := source;
      this.target := target;
      new;
      line := Path();
    }

    /** The segment the connection should show for its endpoints' current geometry. */
    function Path(): Line
      reads source, target
    {
      Line(SceneCenter(source), SceneCenter(target))
    }

    predicate Touches(n: MindMapNode)
    {
      source == n || target == n
    }

    method UpdatePath()
      modifies this`line
      ensures line == Path()
    {
      line := Path();
    }
  }

  /** The items of a scene, told apart only as far as the node needs: connections and everything else. */
  datatype SceneItem = ConnectionItem(conn: Connection) | OtherItem

  /** The change notifications a node reacts to. */
  datatype GraphicsChange = ItemSelectedChange(value: bool) | ItemPositionHasChanged | OtherChange

  /** The connections among a scene's items. */
  function Connections(items: seq<SceneItem>): set<Connection>
  {
    set it | it in items && it.ConnectionItem? :: it.conn
  }

  /** The connections of the scene a node is in; none when it is in no scene. */
  function SceneConnections(scene: Option<seq<SceneItem>>): set<Connection>
  {
    if scene.Some? then Connections(scene.value) else {}
  }

  class MindMapNode {
    var pos: Point
    var rect: Rect
    const minW: real
    const minH: real
    var handles: map<string, Handle>

    /** The handle dictionary holds exactly the eight handles, each under its own name and owned by this node. */
    ghost predicate Wellformed()
      reads this
    {
      handles.Keys == HandleNames &&
      forall n :: n in handles ==> handles[n].posName == n && handles[n].parentNode == this
    }

    /** Every handle sits at its anchor on the current rectangle. */
    ghost predicate HandlesAtAnchors()
      requires Wellformed()
      reads this, handles.Values
    {
      forall h: HandleId :: handles[NameOf(h)].pos == Anchor(rect, h)
    }

    /** The handles are in place and the minimum size is the fixed 80x40. */
    ghost predicate Valid()
      reads this, handles.Values
    {
      Wellformed() && HandlesAtAnchors() && minW == MinWidth && minH == MinHeight
    }

    ghost predicate HandlesVisible(v: bool)
      reads this, handles.Values
    {
      forall n :: n in handles ==> handles[n].visible == v
    }

    /** The rectangle is at least the node's minimum size. */
    ghost predicate SizeOk()
      reads this
    {
      Fits(rect, minW, minH)
    }

    constructor (x: real, y: real)
      ensures Valid() && fresh(handles.Values)
      ensures pos == Point(x, y) && rect == Rect(0.0, 0.0, 150.0, 80.0)
      ensures minW == MinWidth && minH == MinHeight && SizeOk()
      ensures HandlesVisible(false)
      ensures forall n :: n in handles ==> handles[n].cursor == CursorFor(n)
    {
      rect := Rect(0.0, 0.0, 150.0, 80.0);
      pos := Point(x, y);
      minW, minH := MinWidth, MinHeight;
      handles := map[];
      new;
      var names := ["h1", "h2", "h3", "h4", "h5", "h6", "h7", "h8"];
      var i := 0;
      while i < |names|
        invariant 0 <= i <= |names|
        invariant handles.Keys == set n | n in names[..i]
        invariant forall n :: n in handles ==>
                    handles[n].posName == n && handles[n].parentNode == this &&
                    handles[n].cursor == CursorFor(n) && fresh(handles[n])
        invariant pos == Point(x, y) && rect == Rect(0.0, 0.0, 150.0, 80.0)
      {
        var h := new Handle(this, names[i]);
        handles := handles[names[i] := h];
        i := i + 1;
      }
      assert names[..i] == names;
      assert handles.Keys == HandleNames by {
        forall n ensures n in handles.Keys <==> n in HandleNames {
          assert n in names <==> n in HandleNames;
        }
      }
      UpdateHandlePositions();
      SetHandlesVisible(false);
    }

    /** Puts every handle back on its corner or edge midpoint of the current rectangle. */
    method UpdateHandlePositions()
      requires Wellformed()
      modifies handles.Values
      ensures Wellformed() && HandlesAtAnchors()
      ensures forall n :: n in handles ==> handles[n].visible == old(handles[n].visible)
    {
      var r := rect;
      handles["h1"].pos := r.TopLeft();
      handles["h2"].pos := Point(r.Center().x, r.Top());
      handles["h3"].pos := r.TopRight();
      handles["h4"].pos := Point(r.Left(), r.Center().y);
      handles["h5"].pos := Point(r.Right(), r.Center().y);
      handles["h6"].pos := r.BottomLeft();
      handles["h7"].pos := Point(r.Center().x, r.Bottom());
      handles["h8"].pos := r.BottomRight();
    }

    /**
      * Resizes the node by dragging handle name to p (in the node's
      * coordinates). The candidate rectangle is kept only if it is at least
      * the minimum size; the node's position never changes.
      */
    method ResizeLogic(name: string, p: Point)
      requires Valid()
      modifies this`rect, handles.Values
      ensures Valid()
      ensures rect == Resize(old(rect), Parse(name), p, minW, minH)
      ensures Fits(Candidate(old(rect), Parse(name), p), minW, minH) ==> rect == Candidate(old(rect), Parse(name), p)
      ensures !Fits(Candidate(old(rect), Parse(name), p), minW, minH) ==> rect == old(rect)
      ensures old(SizeOk()) ==> SizeOk()
      ensures forall n :: n in handles ==> handles[n].visible == old(handles[n].visible)
    {
      var r := rect;
      if name == "h8" { r := r.SetBottomRight(p); }
      else if name == "h5" { r := r.SetRight(p.x); }
      else if name == "h7" { r := r.SetBottom(p.y); }
      else if name == "h1" { r := r.SetTopLeft(p); }
      else if name == "h4" { r := r.SetLeft(p.x); }
      else if name == "h2" { r := r.SetTop(p.y); }
      else if name == "h3" { r := r.SetTopRight(p); }
      else if name == "h6" { r := r.SetBottomLeft(p); }

      if r.w >= minW && r.h >= minH {
        rect := r.Normalized();
        UpdateHandlePositions();
      }
    }

    /** Shows or hides all eight handles together. */
    method SetHandlesVisible(visible: bool)
      requires Wellformed()
      modifies handles.Values
      ensures HandlesVisible(visible)
      ensures forall n :: n in handles ==> handles[n].pos == old(handles[n].pos)
    {
      var todo := handles.Values;
      while todo != {}
        invariant todo <= handles.Values
        invariant forall h :: h in handles.Values - todo ==> h.visible == visible
        invariant forall h :: h in handles.Values ==> h.pos == old(h.pos)
        decreases todo
      {
        var h :| h in todo;
        h.visible := visible;
        todo := todo - {h};
      }
    }

    /**
      * Refreshes every connection of the scene that starts or ends at this
      * node; the other connections keep their lines.
      */
    method RefreshConnections(items: seq<SceneItem>)
      modifies Connections(items)
      ensures forall it :: it in items && it.ConnectionItem? && it.conn.Touches(this) ==> it.conn.line == it.conn.Path()
      ensures forall it :: it in items && it.ConnectionItem? && !it.conn.Touches(this) ==> it.conn.line == old(it.conn.line)
    {
      var i := 0;
      while i < |items|
        invariant 0 <= i <= |items|
        invariant forall j :: 0 <= j < i && items[j].ConnectionItem? && items[j].conn.Touches(this) ==>
                    items[j].conn.line == items[j].conn.Path()
        invariant forall it :: it in items && it.ConnectionItem? && !it.conn.Touches(this) ==>
                    it.conn.line == old(it.conn.line)
      {
        var item := items[i];
        if item.ConnectionItem? {
          if item.conn.source == this || item.conn.target == this {
            item.conn.UpdatePath();
          }
        }
        i := i + 1;
      }
    }

    /**
      * The node's reaction to a change notification: a selection change
      * shows or hides the handles to match the new selection; a completed
      * move refreshes the attached connections when the node is in a scene.
      */
    method ItemChange(change: GraphicsChange, scene: Option<seq<SceneItem>>)
      requires Valid()
      modifies handles.Values, SceneConnections(scene)
      ensures Valid() && rect == old(rect) && pos == old(pos)
      ensures change.ItemSelectedChange? ==> HandlesVisible(change.value)
      ensures !change.ItemSelectedChange? ==>
                forall n :: n in handles ==> handles[n].visible == old(handles[n].visible)
      ensures change == ItemPositionHasChanged && scene.Some? ==>
                forall it :: it in scene.value && it.ConnectionItem? && it.conn.Touches(this) ==> it.conn.line == it.conn.Path()
      ensures forall it ::
                scene.Some? && it in scene.value && it.ConnectionItem? &&
                (change != ItemPositionHasChanged || !it.conn.Touches(this)) ==>
                it.conn.line == old(it.conn.line)
    {
      if change.ItemSelectedChange? {
        SetHandlesVisible(change.value);
      }
      if change == ItemPositionHasChanged {
        if scene.Some? {
          RefreshConnections(scene.value);
        }
      }
    }
  }
}
