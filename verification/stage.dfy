/**
 The canvas input layer: how pointer events on the stage and on the shapes
 become store updates. Hit-testing, node lookup and the pointer position are
 supplied by the rendering library; here they are parameters.
 */
module Stage {
  import opened Types
  import opened Store

  // ---------------------------------------------------------------- selection

  /** What a mouse-down landed on: the empty stage or the shape with an identifier. */
  datatype Target = StageItself | Shape(id: string)

  /** A click (or tap) on a shape selects exactly that shape. */
  function HandleShapeClick(s: State, id: string): (r: State)
    ensures r.selectedLayerIds == [id]
    ensures r.layers == s.layers && r.canvas == s.canvas
  {
    SelectLayer(s, id)
  }

  /**
   A mouse-down (or touch-start) on the stage itself selects the empty
   identifier, leaving the selection `[""]`; one on a shape changes nothing here.
   */
  function HandleStageMouseDown(s: State, t: Target): (r: State)
    ensures t.StageItself? ==> r.selectedLayerIds == [""] && r.layers == s.layers && r.canvas == s.canvas
    ensures t.Shape? ==> r == s
  {
    if t.StageItself? then SelectLayer(s, "") else s
  }

  // ---------------------------------------------------------------- dragging

  /** The patch a drag commits: the node's position and nothing else. */
  function MovePatch(pos: Point): Patch {
    NoChange.(x := Some(pos.x), y := Some(pos.y))
  }

  /**
   The end of a drag of a rectangle, ellipse or text shape: the dragged layer
   takes the node's position; its other properties, the other layers, the
   selection and the canvas are kept.
   */
  function ShapeDragEnd(s: State, id: string, pos: Point): (r: State)
    ensures |r.layers| == |s.layers|
    ensures forall i :: 0 <= i < |s.layers| && s.layers[i].id == id ==>
      r.layers[i] == s.layers[i].(x := pos.x, y := pos.y)
    ensures forall i :: 0 <= i < |s.layers| && s.layers[i].id != id ==> r.layers[i] == s.layers[i]
    ensures r.selectedLayerIds == s.selectedLayerIds && r.canvas == s.canvas
  {
    var r := UpdateLayer(s, id, MovePatch(pos));
    assert forall i :: 0 <= i < |s.layers| && s.layers[i].id == id ==>
      r.layers[i] == s.layers[i].(x := pos.x, y := pos.y) by {
      forall i | 0 <= i < |s.layers| && s.layers[i].id == id
        ensures r.layers[i] == s.layers[i].(x := pos.x, y := pos.y)
      {
        GetExtensional(r.layers[i], s.layers[i].(x := pos.x, y := pos.y));
      }
    }
    r
  }

  /** Two drags of the same shape leave it where the second one ended. */
  lemma DragTwiceLastWins(s: State, id: string, p1: Point, p2: Point)
    ensures ShapeDragEnd(ShapeDragEnd(s, id, p1), id, p2) == ShapeDragEnd(s, id, p2)
  {
  }

  /**
   The stage's own drag-end handler. It has no check of what was dragged, so
   it runs both for a drag of the stage and for a drag of a shape whose
   drag-end event bubbles up to the stage. Either way, the canvas offset
   becomes the position of the dragged node, and the zoom is kept.
   */
  function StageDragEnd(s: State, pos: Point): (r: State)
    ensures r.canvas == Canvas(s.canvas.zoom, pos)
    ensures r.layers == s.layers && r.selectedLayerIds == s.selectedLayerIds
  {
    SetOffset(s, pos)
  }

  /**
   A complete drag-end, ending at node position `pos`. A drag of the stage
   runs only the stage's handler. A drag of a shape runs the shape's handler
   first, and then the event bubbles to the stage's handler. So the shape
   takes `pos`, and the canvas offset also becomes `pos`.
   */
  function DragEnd(s: State, t: Target, pos: Point): (r: State)
    ensures r.canvas == Canvas(s.canvas.zoom, pos)
    ensures r.selectedLayerIds == s.selectedLayerIds
    ensures t.StageItself? ==> r.layers == s.layers
    ensures t.Shape? ==> |r.layers| == |s.layers|
    ensures t.Shape? ==> forall i :: 0 <= i < |s.layers| && s.layers[i].id == t.id ==>
      r.layers[i] == s.layers[i].(x := pos.x, y := pos.y)
    ensures t.Shape? ==> forall i :: 0 <= i < |s.layers| && s.layers[i].id != t.id ==> r.layers[i] == s.layers[i]
  {
    match t
    case StageItself => StageDragEnd(s, pos)
    case Shape(id) => StageDragEnd(ShapeDragEnd(s, id, pos), pos)
  }

  /**
   Dragging a shape also moves the whole canvas: unless the shape ends where
   the offset already was, the viewport changes.
   */
  lemma ShapeDragMovesCanvas(s: State, id: string, pos: Point)
    requires pos != s.canvas.offset
    ensures DragEnd(s, Shape(id), pos).canvas != s.canvas
    ensures DragEnd(s, Shape(id), pos).canvas.offset == pos
  {
  }

  // ---------------------------------------------------------------- transforming

  /** The rendered rectangle node as the transformer leaves it. */
  datatype Node = Node(x: real, y: real, width: real, height: real, scaleX: real, scaleY: real, rotation: real)

  datatype TransformOutcome = TransformOutcome(state: State, node: Option<Node>)

  /** The patch a transform commits: position, scaled size and rotation of the node. */
  function TransformPatch(n: Node): Patch {
    NoChange.(x := Some(n.x), y := Some(n.y), width := Some(n.width * n.scaleX),
              height := Some(n.height * n.scaleY), rotation := Some(n.rotation))
  }

  /**
   The end of a transform of a rectangle. When the node is found, the layer
   takes the node's position and rotation and its size with the scale baked
   in, and the node's scale is reset to 1; when it is not found, nothing
   happens.
   */
  function RectangleTransformEnd(s: State, id: string, found: Option<Node>): (r: TransformOutcome)
    ensures found.None? ==> r.state == s && r.node.None?
    ensures found.Some? ==> r.node == Some(found.value.(scaleX := 1.0, scaleY := 1.0))
    ensures |r.state.layers| == |s.layers|
    ensures found.Some? ==> forall i :: 0 <= i < |s.layers| && s.layers[i].id == id ==>
      var n := found.value;
      r.state.layers[i] == s.layers[i].(x := n.x, y := n.y, width := n.width * n.scaleX,
                                        height := n.height * n.scaleY, rotation := n.rotation)
    ensures forall i :: 0 <= i < |s.layers| && s.layers[i].id != id ==> r.state.layers[i] == s.layers[i]
    ensures r.state.selectedLayerIds == s.selectedLayerIds && r.state.canvas == s.canvas
  {
    match found
    case None => TransformOutcome(s, None)
    case Some(n) =>
      var t := UpdateLayer(s, id, TransformPatch(n));
      assert forall i :: 0 <= i < |s.layers| && s.layers[i].id == id ==>
        t.layers[i] == s.layers[i].(x := n.x, y := n.y, width := n.width * n.scaleX,
                                    height := n.height * n.scaleY, rotation := n.rotation) by {
        forall i | 0 <= i < |s.layers| && s.layers[i].id == id
          ensures t.layers[i] == s.layers[i].(x := n.x, y := n.y, width := n.width * n.scaleX,
                                              height := n.height * n.scaleY, rotation := n.rotation)
        {
          GetExtensional(t.layers[i], s.layers[i].(x := n.x, y := n.y, width := n.width * n.scaleX,
                                                   height := n.height * n.scaleY, rotation := n.rotation));
        }
      }
      TransformOutcome(t, Some(n.(scaleX := 1.0, scaleY := 1.0)))
  }

  /** How the rectangle node is drawn from its layer: the layer's geometry, at the node's scale. */
  function Render(l: Layer, n: Node): Node {
    n.(x := l.x, y := l.y, width := l.width, height := l.height, rotation := l.rotation)
  }

  /**
   Baking the scale in does not move or resize what is on screen: once the
   committed layer is drawn on the reset node, its drawn extent and pose are
   those the transformer left.
   */
  lemma TransformEndKeepsDrawnBox(s: State, k: nat, n: Node)
    requires k < |s.layers|
    ensures var r := RectangleTransformEnd(s, s.layers[k].id, Some(n));
      var d := Render(r.state.layers[k], r.node.value);
      d.x == n.x && d.y == n.y && d.rotation == n.rotation &&
      d.width * d.scaleX == n.width * n.scaleX && d.height * d.scaleY == n.height * n.scaleY
  {
  }

  // ---------------------------------------------------------------- resize limit

  /** A box the transformer proposes while resizing. */
  datatype Box = Box(x: real, y: real, width: real, height: real, rotation: real)

  /** The smallest side a resize may produce. */
  const MinSide: real := 5.0

  predicate BigEnough(b: Box) {
    b.width >= MinSide && b.height >= MinSide
  }

  /** `boundBoxFunc`: a proposal with a side under 5 is refused and the old box kept. */
  function BoundBox(oldBox: Box, newBox: Box): (r: Box)
    ensures r == newBox <==> BigEnough(newBox) || newBox == oldBox
    ensures r == oldBox || r == newBox
    ensures BigEnough(oldBox) ==> BigEnough(r)
  {
    if newBox.width < MinSide || newBox.height < MinSide then oldBox else newBox
  }

  /**
   One resize gesture: the transformer asks the function once per pointer
   move, each time with the box it currently holds and the new proposal.
   Starting from a box with both sides at least 5, every box of the gesture
   keeps both sides at least 5, and it is the start or one of the proposals.
   */
  function ResizeGesture(start: Box, proposals: seq<Box>): (r: Box)
    requires BigEnough(start)
    ensures BigEnough(r)
    ensures r == start || r in proposals
    decreases |proposals|
  {
    if |proposals| == 0 then start
    else ResizeGesture(BoundBox(start, proposals[0]), proposals[1..])
  }

  // ---------------------------------------------------------------- wheel zoom

  /** The zoom step of one wheel notch. */
  const ScaleBy: real := 1.1

  /** The world point drawn at screen point `p`. */
  function ScreenToWorld(c: Canvas, p: Point): Point
    requires c.zoom != 0.0
  {
    Point((p.x - c.offset.x) / c.zoom, (p.y - c.offset.y) / c.zoom)
  }

  /** The screen point at which world point `w` is drawn. */
  function WorldToScreen(c: Canvas, w: Point): Point {
    Point(c.zoom * w.x + c.offset.x, c.zoom * w.y + c.offset.y)
  }

  /** The two views are inverse to each other. */
  lemma ScreenWorldRoundTrip(c: Canvas, p: Point, w: Point)
    requires c.zoom != 0.0
    ensures WorldToScreen(c, ScreenToWorld(c, p)) == p
    ensures ScreenToWorld(c, WorldToScreen(c, w)) == w
  {
  }

  /** The new zoom of one wheel notch: out for a positive delta, in otherwise; never clamped. */
  function WheelScale(zoom: real, deltaY: real): real {
    if deltaY > 0.0 then zoom / ScaleBy else zoom * ScaleBy
  }

  /**
   The viewport after one wheel notch at pointer `p`, with the arithmetic of
   the handler. The world point under the pointer before the notch is still
   under the pointer after it.
   */
  function WheelZoom(c: Canvas, p: Point, deltaY: real): (r: Canvas)
    requires c.zoom != 0.0
    ensures r.zoom != 0.0
    ensures deltaY > 0.0 ==> r.zoom * ScaleBy == c.zoom
    ensures deltaY <= 0.0 ==> r.zoom == c.zoom * ScaleBy
    ensures ScreenToWorld(r, p) == ScreenToWorld(c, p)
    ensures WorldToScreen(r, ScreenToWorld(c, p)) == p
  {
    var oldScale := c.zoom;
    var mousePointTo := Point(p.x / oldScale - c.offset.x / oldScale, p.y / oldScale - c.offset.y / oldScale);
    var newScale := WheelScale(oldScale, deltaY);
    var r := Canvas(newScale, Point(-(mousePointTo.x - p.x / newScale) * newScale,
                                    -(mousePointTo.y - p.y / newScale) * newScale));
    WheelFixesPointer(c, p, newScale);
    r
  }

  /** The offset arithmetic of the handler puts the old world point back under the pointer, at any nonzero new zoom. */
  lemma WheelFixesPointer(c: Canvas, p: Point, z: real)
    requires c.zoom != 0.0 && z != 0.0
    ensures var m := Point(p.x / c.zoom - c.offset.x / c.zoom, p.y / c.zoom - c.offset.y / c.zoom);
      var r := Canvas(z, Point(-(m.x - p.x / z) * z, -(m.y - p.y / z) * z));
      ScreenToWorld(r, p) == ScreenToWorld(c, p) && WorldToScreen(r, ScreenToWorld(c, p)) == p
  {
    var m := Point(p.x / c.zoom - c.offset.x / c.zoom, p.y / c.zoom - c.offset.y / c.zoom);
    var r := Canvas(z, Point(-(m.x - p.x / z) * z, -(m.y - p.y / z) * z));
    assert z * (p.x / z) == p.x && z * (p.y / z) == p.y;
    assert r.offset == Point(p.x - z * m.x, p.y - z * m.y);
    assert m == ScreenToWorld(c, p);
  }

  /** The wheel handler on the store: zoom and offset change as above, layers and selection do not. */
  function OnWheel(s: State, p: Point, deltaY: real): (r: State)
    requires s.canvas.zoom != 0.0
    ensures r.canvas.zoom != 0.0
    ensures deltaY > 0.0 ==> r.canvas.zoom * ScaleBy == s.canvas.zoom
    ensures deltaY <= 0.0 ==> r.canvas.zoom == s.canvas.zoom * ScaleBy
    ensures ScreenToWorld(r.canvas, p) == ScreenToWorld(s.canvas, p)
    ensures r.layers == s.layers && r.selectedLayerIds == s.selectedLayerIds
  {
    var c := WheelZoom(s.canvas, p, deltaY);
    SetOffset(SetZoom(s, c.zoom), c.offset)
  }

  /** A notch in and then a notch out at the same pointer give back the viewport. */
  lemma WheelInThenOut(c: Canvas, p: Point, inDelta: real, outDelta: real)
    requires c.zoom != 0.0 && inDelta <= 0.0 && outDelta > 0.0
    ensures WheelZoom(WheelZoom(c, p, inDelta), p, outDelta) == c
  {
  }

  /** A notch out and then a notch in at the same pointer give back the viewport. */
  lemma WheelOutThenIn(c: Canvas, p: Point, outDelta: real, inDelta: real)
    requires c.zoom != 0.0 && outDelta > 0.0 && inDelta <= 0.0
    ensures WheelZoom(WheelZoom(c, p, outDelta), p, inDelta) == c
  {
  }

  /** A viewport is fixed by its zoom and the world point it draws at one screen point. */
  lemma SameZoomSameWorldPoint(a: Canvas, b: Canvas, p: Point)
    requires a.zoom == b.zoom && a.zoom != 0.0
    requires ScreenToWorld(a, p) == ScreenToWorld(b, p)
    ensures a == b
  {
  }

  /** After a notch, the offset is what puts the old world point under the pointer at the new zoom. */
  lemma WheelOffset(c: Canvas, p: Point, deltaY: real)
    requires c.zoom != 0.0
    ensures var r := WheelZoom(c, p, deltaY); var w := ScreenToWorld(c, p);
      r.offset == Point(p.x - r.zoom * w.x, p.y - r.zoom * w.y)
  {
  }

  /** From zoom 1 and offset 0, one notch in at (100, 100) gives zoom 1.1 and offset (-10, -10). */
  lemma WheelFromIdentity()
    ensures WheelZoom(Canvas(1.0, Point(0.0, 0.0)), Point(100.0, 100.0), -1.0) == Canvas(1.1, Point(-10.0, -10.0))
  {
    var c := Canvas(1.0, Point(0.0, 0.0));
    var p := Point(100.0, 100.0);
    assert ScreenToWorld(c, p) == p;
    WheelOffset(c, p, -1.0);
  }

  /** The zoom is not clamped: one notch in at zoom 5 gives zoom 5.5. */
  lemma WheelNotClamped(c: Canvas, p: Point)
    requires c.zoom == 5.0
    ensures WheelZoom(c, p, -1.0).zoom == 5.5
  {
  }
}
