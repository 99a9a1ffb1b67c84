/**
 The layer data model of the editor: a point, the three-way shape tag and the
 layer record with its mandatory geometry and optional stroke/text fields.
 JavaScript numbers are modelled as `real` (no IEEE rounding).
 */
module Types {

  /** A value that may be missing, as an optional (`?:`) property is. */
  datatype Option<+T> = None | Some(value: T) {
    function GetOr(default: T): T {
      match this
      case Some(v) => v
      case None => default
    }
  }

  /** A pair of numbers. */
  datatype Point = Point(x: real, y: real)

  /** The shape tag: exactly three variants. */
  datatype LayerType = Rectangle | Ellipse | Text

  /** One drawable object of the document. */
  datatype Layer = Layer(
    id: string,
    kind: LayerType,
    x: real,
    y: real,
    width: real,
    height: real,
    rotation: real,
    fill: string,
    stroke: Option<string>,
    strokeWidth: Option<real>,
    text: Option<string>,
    fontSize: Option<real>,
    fontFamily: Option<string>)

  /** The spelling of a tag in the document. */
  function TypeName(t: LayerType): string {
    match t
    case Rectangle => "rectangle"
    case Ellipse => "ellipse"
    case Text => "text"
  }

  /** Reads a tag back from its spelling; every other string is refused. */
  function ParseType(s: string): (r: Option<LayerType>)
    ensures r.Some? <==> s == "rectangle" || s == "ellipse" || s == "text"
    ensures r.Some? ==> TypeName(r.value) == s
  {
    if s == "rectangle" then Some(Rectangle)
    else if s == "ellipse" then Some(Ellipse)
    else if s == "text" then Some(Text)
    else None
  }

  /** Spelling a tag and reading it back gives the tag: the three spellings are distinct. */
  lemma ParseTypeName(t: LayerType)
    ensures ParseType(TypeName(t)) == Some(t)
  {
  }

  /** Every property name of a layer record. */
  datatype Field =
    | IdField | TypeField | XField | YField | WidthField | HeightField
    | RotationField | FillField | StrokeField | StrokeWidthField
    | TextField | FontSizeField | FontFamilyField

  /** The properties declared without `?`. */
  predicate Required(f: Field) {
    f in {IdField, TypeField, XField, YField, WidthField, HeightField, RotationField, FillField}
  }

  /** The value held under one property name; `Unset` is a missing optional property. */
  datatype FieldValue = Str(s: string) | Num(n: real) | Tag(t: LayerType) | Unset

  function StrOf(o: Option<string>): FieldValue {
    match o
    case Some(s) => Str(s)
    case None => Unset
  }

  function NumOf(o: Option<real>): FieldValue {
    match o
    case Some(n) => Num(n)
    case None => Unset
  }

  /** The property view of a layer: every required property is present on every variant. */
  function Get(l: Layer, f: Field): (r: FieldValue)
    ensures Required(f) ==> r != Unset
  {
    match f
    case IdField => Str(l.id)
    case TypeField => Tag(l.kind)
    case XField => Num(l.x)
    case YField => Num(l.y)
    case WidthField => Num(l.width)
    case HeightField => Num(l.height)
    case RotationField => Num(l.rotation)
    case FillField => Str(l.fill)
    case StrokeField => StrOf(l.stroke)
    case StrokeWidthField => NumOf(l.strokeWidth)
    case TextField => StrOf(l.text)
    case FontSizeField => NumOf(l.fontSize)
    case FontFamilyField => StrOf(l.fontFamily)
  }

  /** Two layers with the same value under every property name are the same layer. */
  lemma GetExtensional(a: Layer, b: Layer)
    requires forall f :: Get(a, f) == Get(b, f)
    ensures a == b
  {
    assert Get(a, IdField) == Get(b, IdField);
    assert Get(a, TypeField) == Get(b, TypeField);
    assert Get(a, XField) == Get(b, XField);
    assert Get(a, YField) == Get(b, YField);
    assert Get(a, WidthField) == Get(b, WidthField);
    assert Get(a, HeightField) == Get(b, HeightField);
    assert Get(a, RotationField) == Get(b, RotationField);
    assert Get(a, FillField) == Get(b, FillField);
    assert Get(a, StrokeField) == Get(b, StrokeField);
    assert Get(a, StrokeWidthField) == Get(b, StrokeWidthField);
    assert Get(a, TextField) == Get(b, TextField);
    assert Get(a, FontSizeField) == Get(b, FontSizeField);
    assert Get(a, FontFamilyField) == Get(b, FontFamilyField);
  }

  /**
   The optional properties are not tied to a variant: retagging a layer keeps
   them, and each of them may be missing, whatever the variant.
   */
  lemma OptionalFieldsOnEveryVariant(l: Layer, k: LayerType)
    ensures forall f :: !Required(f) ==> Get(l.(kind := k), f) == Get(l, f)
    ensures forall f :: !Required(f) ==>
      Get(l.(kind := k, stroke := None, strokeWidth := None, text := None, fontSize := None, fontFamily := None), f) == Unset
  {
  }
}
