# Mind-map node resize geometry in Dafny

This project models the node item of a desktop mind-mapping editor
(`MindMapNode` in `items/base_node.py`). A node owns a rectangle in its own
coordinates. It starts as `(0, 0, 150, 80)` with a minimum size of 80×40. It
owns eight resize handles: `h1`–`h3` along the top, `h4`/`h5` on the side
midpoints, `h6`–`h8` along the bottom. Dragging a handle proposes a new
rectangle by moving one edge (edge handles) or two edges (corner handles) to
the pointer. The proposal is stored only if it is at least the minimum size;
otherwise the node keeps its old rectangle. After a stored resize every
handle is put back on its corner or edge midpoint. Selecting the node shows
all handles, deselecting hides them. A move of the node refreshes the
connections attached to it.

Files:

- `Wrappers.dfy`: the `Option` type.
- `Geometry.dfy`: points and rectangles. The rectangle setters used by the
  resize code are given their meaning here: setting the left or top edge
  keeps the opposite edge fixed; setting the right or bottom edge changes
  only the size; corner setters combine two edge setters; normalisation
  flips a negative width or height.
- `Handles.dfy`: handle names, the cursor table, the anchor of each handle,
  the candidate rectangle of a drag, the accept-or-keep resize rule, and
  drags as sequences of mouse-move events, with the lemmas about them.
- `BaseNode.dfy`: the classes `Handle`, `MindMapNode` and `Connection`,
  whose methods update their fields in place. `MindMapNode.Valid()` says the
  handle dictionary holds the eight handles under their own names and that
  every handle sits at its anchor on the current rectangle, and that the
  minimum size is the fixed 80×40.

Behaviour of the code that the model keeps as it is:

- A too-small resize is rejected (the old rectangle stays); it is not
  clamped to the minimum.
- Dragging a left or top handle moves the rectangle's origin inside the
  node; it does not change the node's position, although a comment on
  `items/base_node.py:86` says it would.
- Connections are straight segments between the two nodes' centres
  (`core/connection.py:14-18`); resize positions are used as they come,
  without rounding to a grid.
- Connections are refreshed when a node's position changes. A resize does
  not refresh them; the connection only catches up when it is next painted
  (`core/connection.py:20-22`).

## Model

| member | source | states |
|---|---|---|
| `Geometry.Rect.SetLeft` | items/base_node.py:88 | the left edge goes to the value and the right, top and bottom edges stay where they were |
| `Geometry.Rect.SetTop` | items/base_node.py:89 | the top edge goes to the value and the bottom, left and right edges stay where they were |
| `Geometry.Rect.SetRight` | items/base_node.py:84 | the right edge goes to the value and the left, top and bottom edges stay where they were |
| `Geometry.Rect.SetBottom` | items/base_node.py:85 | the bottom edge goes to the value and the top, left and right edges stay where they were |
| `Geometry.Rect.SetTopLeft` | items/base_node.py:87 | the top-left corner goes to the point and the bottom-right corner stays where it was |
| `Geometry.Rect.SetTopRight` | items/base_node.py:90 | the top-right corner goes to the point and the bottom-left corner stays where it was |
| `Geometry.Rect.SetBottomLeft` | items/base_node.py:91 | the bottom-left corner goes to the point and the top-right corner stays where it was |
| `Geometry.Rect.SetBottomRight` | items/base_node.py:83 | the bottom-right corner goes to the point and the top-left corner stays where it was |
| `Geometry.Rect.Normalized` | items/base_node.py:94 | the result has non-negative size and covers the same span on each axis; a rectangle that is not inverted is returned unchanged |
| `Handles.Parse` | items/base_node.py:50-54 | exactly the eight dictionary names denote a handle, and the handle found carries that name |
| `Handles.ParseNameOf` | items/base_node.py:50-54 | each handle's name parses back to that handle |
| `Handles.CursorFor` | items/base_node.py:18-26 | the eight handle names get a resize cursor and every other name gets the arrow |
| `Handles.CursorMatchesDrag` | items/base_node.py:18-26 | each handle's cursor shows the direction its drag resizes: vertical for h2/h7, horizontal for h4/h5, the main diagonal for h1/h8, the other diagonal for h3/h6 |
| `Handles.AnchorOnMovedEdges` | items/base_node.py:62-69 | each handle sits on every edge it moves and on the centre line of any axis it does not move (h1/h3/h6/h8 on corners, h2/h4/h5/h7 on edge midpoints) |
| `Handles.Candidate` | items/base_node.py:81-91 | the edges a handle moves go to the pointer coordinate and all other edges stay, so corners pin the opposite corner; an unknown name proposes the old rectangle |
| `Handles.Resize` | items/base_node.py:93-95 | a candidate below the minimum width or height is rejected and the old rectangle kept; one that fits is stored exactly as proposed; whatever is stored fits and is never inverted |
| `Handles.DragToOwnAnchor` | items/base_node.py:62-69 | dragging a handle onto the point where it already sits leaves the rectangle unchanged, including one below the minimum size |
| `Handles.DragByOffset` | items/base_node.py:28-31 | a pointer displaced from a handle's anchor moves each edge the handle moves by exactly that displacement, and no other edge |
| `Handles.ResizeIdempotent` | items/base_node.py:79-95 | repeating a resize with the same handle to the same point in the node's coordinates changes nothing further |
| `Handles.DragKeepsMinimum` | items/base_node.py:93-95 | a rectangle that starts at least the minimum size stays so through any sequence of drag events |
| `Handles.DragPinsUntouchedEdge` | items/base_node.py:83-91 | an edge that no event of a drag moves stays where it was through the whole drag |
| `BaseNode.Handle.constructor` | items/base_node.py:7-16 | a new handle belongs to its node, carries its name and shows the cursor the table gives that name |
| `BaseNode.Handle.MouseMove` | items/base_node.py:28-31 | the event position is mapped into the node's coordinates and the node's rectangle becomes the resize of the old one towards it; for a handle at its anchor the drag is measured from that anchor |
| `BaseNode.MindMapNode.constructor` | items/base_node.py:34-57 | a new node has rectangle (0, 0, 150, 80) at the given position, minimum 80×40 (which it meets), its eight handles at their anchors, each with its cursor, and all of them hidden |
| `BaseNode.MindMapNode.UpdateHandlePositions` | items/base_node.py:59-69 | every handle is put on its corner or edge midpoint of the current rectangle and its visibility is untouched |
| `BaseNode.MindMapNode.ResizeLogic` | items/base_node.py:79-95 | the new rectangle is the accept-or-keep resize of the old one against the fixed 80×40 minimum, the minimum size is preserved, the node's position does not change and the handles end up at their anchors |
| `BaseNode.MindMapNode.SetHandlesVisible` | items/base_node.py:97-98 | all eight handles get the given visibility and none of them moves |
| `BaseNode.MindMapNode.RefreshConnections` | items/base_node.py:106-113 | every connection of the scene that starts or ends at the node is redrawn between the two centres and every other connection keeps its line |
| `BaseNode.MindMapNode.ItemChange` | items/base_node.py:100-115 | a selection change sets all handles' visibility to the new selection; a completed move refreshes the attached connections when the node is in a scene; the rectangle and position never change |
| `BaseNode.Connection.constructor` | core/connection.py:6-12 | a new connection joins its two nodes and starts drawn between their centres |
| `BaseNode.Connection.UpdatePath` | core/connection.py:14-18 | the line runs from the source node's centre to the target node's centre in canvas coordinates |

## Left out

- The text item inside a node and `center_text`: its position depends on the size of the text's bounding box, which the graphics toolkit computes.
- Pens, brushes and stacking order: rendering only.
- The item flags are not modelled as state. The node's movable, selectable and geometry-change flags are what make the toolkit deliver the selection and position notifications that `ItemChange` takes as inputs; the handle's movable flag is what lets it receive the move events that `Handle.MouseMove` takes as inputs.
- The handle's own 10×10 rectangle centred on its position is not modelled as a shape: it is the grab area, so a drag may start up to 5 units from the anchor; `Handle.MouseMove` and `DragByOffset` take that offset as the event position relative to the anchor.
- The value `itemChange` hands back to the toolkit: the node passes it through unchanged.
- Moving a node with the mouse: the toolkit changes the node's position and then sends the position notification; the model takes that notification as input to `ItemChange`.
- A node's bounding box includes half the pen width on each side; that margin is symmetric, so the model uses the centre of the rectangle itself.
- Floating-point rounding: coordinates are reals, since the code only adds, subtracts, halves and compares them.
- The main window (toolbar, status bar, zoom, image export) and its manual size edit, which sets a rectangle without the minimum-size check: these are not part of this model, and the minimum-size bound is stated about resizes, not kept as an object invariant.
- Painting of nodes and connections, the undo commands and the JSON save and load: they only call into the graphics toolkit or do file input and output.
