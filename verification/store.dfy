/**
 The document store: the canvas viewport, the flat layer list and the
 selection, with the five update functions the rest of the editor calls.
 Every update is a pure function from the old state to the new one; the
 store replaces only the properties an update names and keeps the rest.
 */
module Store {
  import opened Types

  /** The viewport: screen point = zoom * world point + offset. */
  datatype Canvas = Canvas(zoom: real, offset: Point)

  datatype State = State(canvas: Canvas, layers: seq<Layer>, selectedLayerIds: seq<string>)

  /** The state the editor starts in. */
  function Init(): (s: State)
    ensures s.canvas.zoom == 1.0 && s.canvas.offset == Point(0.0, 0.0)
    ensures |s.layers| == 0 && |s.selectedLayerIds| == 0
  {
    State(Canvas(1.0, Point(0.0, 0.0)), [], [])
  }

  /**
   A partial layer: each property is either absent (`None`) or carries the
   value to write. The identifier and the tag are properties like any other.
   */
  datatype Patch = Patch(
    id: Option<string>,
    kind: Option<LayerType>,
    x: Option<real>,
    y: Option<real>,
    width: Option<real>,
    height: Option<real>,
    rotation: Option<real>,
    fill: Option<string>,
    stroke: Option<string>,
    strokeWidth: Option<real>,
    text: Option<string>,
    fontSize: Option<real>,
    fontFamily: Option<string>)

  /** The patch that names no property. */
  const NoChange := Patch(None, None, None, None, None, None, None, None, None, None, None, None, None)

  function SomeStr(o: Option<string>): Option<FieldValue> {
    match o
    case Some(s) => Some(Str(s))
    case None => None
  }

  function SomeNum(o: Option<real>): Option<FieldValue> {
    match o
    case Some(n) => Some(Num(n))
    case None => None
  }

  /** The value a patch writes under one property name, if it names it. */
  function PatchGet(p: Patch, f: Field): Option<FieldValue> {
    match f
    case IdField => SomeStr(p.id)
    case TypeField => if p.kind.Some? then Some(Tag(p.kind.value)) else None
    case XField => SomeNum(p.x)
    case YField => SomeNum(p.y)
    case WidthField => SomeNum(p.width)
    case HeightField => SomeNum(p.height)
    case RotationField => SomeNum(p.rotation)
    case FillField => SomeStr(p.fill)
    case StrokeField => SomeStr(p.stroke)
    case StrokeWidthField => SomeNum(p.strokeWidth)
    case TextField => SomeStr(p.text)
    case FontSizeField => SomeNum(p.fontSize)
    case FontFamilyField => SomeStr(p.fontFamily)
  }

  /**
   The shallow merge `{ ...layer, ...updates }`: every property the patch
   names is overwritten with the patch's value, every other one is kept.
   Nothing is validated.
   */
  function Merge(l: Layer, p: Patch): (r: Layer)
    ensures forall f :: Get(r, f) == PatchGet(p, f).GetOr(Get(l, f))
  {
    Layer(
      p.id.GetOr(l.id),
      p.kind.GetOr(l.kind),
      p.x.GetOr(l.x),
      p.y.GetOr(l.y),
      p.width.GetOr(l.width),
      p.height.GetOr(l.height),
      p.rotation.GetOr(l.rotation),
      p.fill.GetOr(l.fill),
      if p.stroke.Some? then p.stroke else l.stroke,
      if p.strokeWidth.Some? then p.strokeWidth else l.strokeWidth,
      if p.text.Some? then p.text else l.text,
      if p.fontSize.Some? then p.fontSize else l.fontSize,
      if p.fontFamily.Some? then p.fontFamily else l.fontFamily)
  }

  function Later<T>(a: Option<T>, b: Option<T>): Option<T> {
    if b.Some? then b else a
  }

  /** Two patches applied one after the other, as one: the later one wins where both name a property. */
  function Combine(p: Patch, q: Patch): (r: Patch)
    ensures forall f :: PatchGet(r, f) == (if PatchGet(q, f).Some? then PatchGet(q, f) else PatchGet(p, f))
  {
    Patch(
      Later(p.id, q.id), Later(p.kind, q.kind), Later(p.x, q.x), Later(p.y, q.y),
      Later(p.width, q.width), Later(p.height, q.height), Later(p.rotation, q.rotation),
      Later(p.fill, q.fill), Later(p.stroke, q.stroke), Later(p.strokeWidth, q.strokeWidth),
      Later(p.text, q.text), Later(p.fontSize, q.fontSize), Later(p.fontFamily, q.fontFamily))
  }

  /** Merging the empty patch changes nothing. */
  lemma MergeNoChange(l: Layer)
    ensures Merge(l, NoChange) == l
  {
  }

  /** Merging p and then q is merging their combination. */
  lemma MergeCombine(l: Layer, p: Patch, q: Patch)
    ensures Merge(Merge(l, p), q) == Merge(l, Combine(p, q))
  {
  }

  /** Merging the same patch twice is merging it once. */
  lemma MergeIdempotent(l: Layer, p: Patch)
    ensures Merge(Merge(l, p), p) == Merge(l, p)
  {
  }

  /**
   `layers.map(layer => layer.id === id ? merge : layer)`: the list keeps its
   length and order, every layer whose identifier is `id` is merged with the
   patch and every other layer is kept as it was.
   */
  function UpdateLayers(ls: seq<Layer>, id: string, p: Patch): (r: seq<Layer>)
    ensures |r| == |ls|
    ensures forall i :: 0 <= i < |ls| && ls[i].id != id ==> r[i] == ls[i]
    ensures forall i :: 0 <= i < |ls| && ls[i].id == id ==> r[i] == Merge(ls[i], p)
  {
    if |ls| == 0 then []
    else [if ls[0].id == id then Merge(ls[0], p) else ls[0]] + UpdateLayers(ls[1..], id, p)
  }

  /** `setZoom`: the zoom becomes exactly `z`, with no clamping; nothing else changes. */
  function SetZoom(s: State, z: real): (r: State)
    ensures r.canvas.zoom == z
    ensures r.canvas.offset == s.canvas.offset
    ensures r.layers == s.layers && r.selectedLayerIds == s.selectedLayerIds
  {
    s.(canvas := s.canvas.(zoom := z))
  }

  /** `setOffset`: the offset becomes `o`; nothing else changes. */
  function SetOffset(s: State, o: Point): (r: State)
    ensures r.canvas.offset == o
    ensures r.canvas.zoom == s.canvas.zoom
    ensures r.layers == s.layers && r.selectedLayerIds == s.selectedLayerIds
  {
    s.(canvas := s.canvas.(offset := o))
  }

  /** `addLayer`: the layer goes on the end of the list; selection and canvas are untouched. */
  function AddLayer(s: State, l: Layer): (r: State)
    ensures |r.layers| == |s.layers| + 1
    ensures r.layers[..|s.layers|] == s.layers
    ensures r.layers[|s.layers|] == l
    ensures r.canvas == s.canvas && r.selectedLayerIds == s.selectedLayerIds
  {
    s.(layers := s.layers + [l])
  }

  /**
   `selectLayer`: the selection becomes the one-element list `[id]`, whether
   or not a layer has that identifier, and also for the empty identifier.
   */
  function SelectLayer(s: State, id: string): (r: State)
    ensures |r.selectedLayerIds| == 1 && r.selectedLayerIds[0] == id
    ensures r.layers == s.layers && r.canvas == s.canvas
  {
    s.(selectedLayerIds := [id])
  }

  /**
   `updateLayer`: only the layer list changes; every layer with identifier
   `id` has each property the patch names overwritten and every other
   property kept; all other layers are kept, in the same order.
   */
  function UpdateLayer(s: State, id: string, p: Patch): (r: State)
    ensures r.canvas == s.canvas && r.selectedLayerIds == s.selectedLayerIds
    ensures |r.layers| == |s.layers|
    ensures forall i :: 0 <= i < |s.layers| && s.layers[i].id != id ==> r.layers[i] == s.layers[i]
    ensures forall i, f :: 0 <= i < |s.layers| && s.layers[i].id == id ==>
      Get(r.layers[i], f) == PatchGet(p, f).GetOr(Get(s.layers[i], f))
  {
    s.(layers := UpdateLayers(s.layers, id, p))
  }

  /** The identifiers of a layer list, in order. */
  function Ids(ls: seq<Layer>): (r: seq<string>)
    ensures |r| == |ls| && forall i :: 0 <= i < |ls| ==> r[i] == ls[i].id
  {
    if |ls| == 0 then [] else [ls[0].id] + Ids(ls[1..])
  }

  /** When no layer has the identifier, `updateLayer` leaves the state as it was. */
  lemma UpdateMissingId(s: State, id: string, p: Patch)
    requires id !in Ids(s.layers)
    ensures UpdateLayer(s, id, p) == s
  {
  }

  /** Updating twice with the same patch is updating once, even when the patch renames the layer. */
  lemma UpdateIdempotent(ls: seq<Layer>, id: string, p: Patch)
    ensures UpdateLayers(UpdateLayers(ls, id, p), id, p) == UpdateLayers(ls, id, p)
  {
  }

  /**
   Two updates of the same layer are one update with the combined patch,
   provided the first does not rename the layer away from `id`.
   */
  lemma UpdateCombine(ls: seq<Layer>, id: string, p: Patch, q: Patch)
    requires p.id.None? || p.id.value == id
    ensures UpdateLayers(UpdateLayers(ls, id, p), id, q) == UpdateLayers(ls, id, Combine(p, q))
  {
    var a := UpdateLayers(UpdateLayers(ls, id, p), id, q);
    var b := UpdateLayers(ls, id, Combine(p, q));
    forall i | 0 <= i < |ls| ensures a[i] == b[i] {
      if ls[i].id == id {
        MergeCombine(ls[i], p, q);
      }
    }
  }

  /**
   Updating a freshly added layer whose identifier is new to the document
   is the same as adding the already merged layer.
   */
  lemma UpdateAfterAdd(s: State, l: Layer, p: Patch)
    requires l.id !in Ids(s.layers)
    ensures UpdateLayer(AddLayer(s, l), l.id, p) == AddLayer(s, Merge(l, p))
  {
  }

  /** With unique identifiers, an update touches at most the one layer that has `id`. */
  lemma UpdateUniqueTouchesOne(s: State, k: nat, p: Patch)
    requires k < |s.layers|
    requires forall i, j :: 0 <= i < j < |s.layers| ==> s.layers[i].id != s.layers[j].id
    ensures UpdateLayer(s, s.layers[k].id, p).layers == s.layers[k := Merge(s.layers[k], p)]
  {
  }

  /** No validation: a negative width written by an update is stored as given. */
  lemma UpdateStoresNegativeWidth(s: State, k: nat, w: real)
    requires k < |s.layers| && w < 0.0
    ensures UpdateLayer(s, s.layers[k].id, NoChange.(width := Some(w))).layers[k].width == w
  {
  }
}
