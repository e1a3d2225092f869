/** The whiteboard's drawing records: tools, shapes, points, strokes, whole
    drawings and per-room analytics, with the defaults their constructors
    fill in when a field is omitted. Floating-point fields are `real` values
    that the model stores and compares but never computes with. */
module Drawing {
  import opened Results

  /** Default canvas size, shared by drawings, rooms and heatmaps. */
  const DefaultCanvasWidth: int := 1920
  const DefaultCanvasHeight: int := 1080

  const DefaultStrokeColor: string := "#000000"
  const DefaultStrokeWidth: real := 2.0
  const DefaultPressure: real := 1.0
  const DefaultBackgroundColor: string := "#ffffff"

  /** The drawing tools; each is a string enum member carrying its wire value. */
  datatype ToolType = Pen | Eraser | Shape | Text {
    function Value(): string {
      match this
      case Pen => "pen"
      case Eraser => "eraser"
      case Shape => "shape"
      case Text => "text"
    }
  }

  const ToolTypeValues: set<string> := {"pen", "eraser", "shape", "text"}

  /** Validating a wire string into a tool: only the four enum values are
      accepted, and each is read back as the member that carries it. */
  function ParseToolType(s: string): (r: Option<ToolType>)
    ensures r.Some? <==> s in ToolTypeValues
    ensures r.Some? ==> r.value.Value() == s
  {
    if s == "pen" then Some(Pen)
    else if s == "eraser" then Some(Eraser)
    else if s == "shape" then Some(Shape)
    else if s == "text" then Some(Text)
    else None
  }

  /** The geometric shape categories, each carrying its wire value. */
  datatype ShapeType = Rectangle | Circle | Triangle | Line | Arrow {
    function Value(): string {
      match this
      case Rectangle => "rectangle"
      case Circle => "circle"
      case Triangle => "triangle"
      case Line => "line"
      case Arrow => "arrow"
    }
  }

  const ShapeTypeValues: set<string> := {"rectangle", "circle", "triangle", "line", "arrow"}

  /** Validating a wire string into a shape: only the five enum values are
      accepted, and each is read back as the member that carries it. */
  function ParseShapeType(s: string): (r: Option<ShapeType>)
    ensures r.Some? <==> s in ShapeTypeValues
    ensures r.Some? ==> r.value.Value() == s
  {
    if s == "rectangle" then Some(Rectangle)
    else if s == "circle" then Some(Circle)
    else if s == "triangle" then Some(Triangle)
    else if s == "line" then Some(Line)
    else if s == "arrow" then Some(Arrow)
    else None
  }

  /** The tool enum is closed: exactly four distinct members, each parsed
      back from its own value. */
  lemma ToolTypeClosed()
    ensures |ToolTypeValues| == 4
    ensures forall t: ToolType :: t.Value() in ToolTypeValues && ParseToolType(t.Value()) == Some(t)
  {
  }

  /** The shape enum is closed: exactly five distinct members, each parsed
      back from its own value. */
  lemma ShapeTypeClosed()
    ensures |ShapeTypeValues| == 5
    ensures forall t: ShapeType :: t.Value() in ShapeTypeValues && ParseShapeType(t.Value()) == Some(t)
  {
  }

  /** One sampled point of a stroke. */
  datatype DrawingPoint = DrawingPoint(x: real, y: real, pressure: Option<real>)

  /** One stroke: its points, colour, width, tool and, for shape strokes, the
      recognised shape category. */
  datatype DrawingStroke = DrawingStroke(
    points: seq<DrawingPoint>,
    color: string,
    width: real,
    tool: ToolType,
    shapeType: Option<ShapeType>)

  /** A whole drawing as saved for a room. */
  datatype DrawingData = DrawingData(
    strokes: seq<DrawingStroke>,
    canvasWidth: int,
    canvasHeight: int,
    backgroundColor: string,
    timestamp: Option<string>)

  /** The heatmap record the service stores alongside its counts. */
  datatype HeatmapData = HeatmapData(width: int, height: int, data: seq<real>)

  /** Per-room statistics derived from the last saved drawing.
      `drawingTimeTenths` counts tenths of a second. */
  datatype CanvasAnalytics = CanvasAnalytics(
    totalStrokes: int,
    activeUsers: int,
    drawingTimeTenths: int,
    heatmapData: HeatmapData,
    shapeCount: map<string, int>,
    colorUsage: map<string, int>)

  /** Building a point: an omitted `pressure` (outer `None`) takes the default
      1.0; an explicit null (`Some(None)`) is kept. */
  function MakePoint(x: real, y: real, pressure: Option<Option<real>>): DrawingPoint
  {
    DrawingPoint(x, y, pressure.GetOr(Some(DefaultPressure)))
  }

  /** Building a stroke: each omitted option takes its declared default. */
  function MakeStroke(
    points: seq<DrawingPoint>,
    color: Option<string>,
    width: Option<real>,
    tool: Option<ToolType>,
    shapeType: Option<Option<ShapeType>>): DrawingStroke
  {
    DrawingStroke(
      points,
      color.GetOr(DefaultStrokeColor),
      width.GetOr(DefaultStrokeWidth),
      tool.GetOr(Pen),
      shapeType.GetOr(None))
  }

  /** Building a drawing: each omitted option takes its declared default. */
  function MakeDrawingData(
    strokes: Option<seq<DrawingStroke>>,
    canvasWidth: Option<int>,
    canvasHeight: Option<int>,
    backgroundColor: Option<string>,
    timestamp: Option<Option<string>>): DrawingData
  {
    DrawingData(
      strokes.GetOr([]),
      canvasWidth.GetOr(DefaultCanvasWidth),
      canvasHeight.GetOr(DefaultCanvasHeight),
      backgroundColor.GetOr(DefaultBackgroundColor),
      timestamp.GetOr(None))
  }

  /** A point built without a pressure has pressure 1.0; an explicit null
      or value is kept. */
  lemma PointDefaults(x: real, y: real, pressure: Option<real>)
    ensures MakePoint(x, y, None) == DrawingPoint(x, y, Some(1.0))
    ensures MakePoint(x, y, Some(pressure)) == DrawingPoint(x, y, pressure)
  {
  }

  /** A stroke built from points alone is a black pen stroke of width 2.0
      with no shape; each option that is given is kept, so a stroke rebuilt
      from all of its own fields is itself. */
  lemma StrokeDefaults(points: seq<DrawingPoint>, s: DrawingStroke)
    ensures MakeStroke(points, None, None, None, None)
         == DrawingStroke(points, "#000000", 2.0, Pen, None)
    ensures MakeStroke(s.points, Some(s.color), Some(s.width), Some(s.tool), Some(s.shapeType)) == s
  {
  }

  /** A drawing built with no options is empty, 1920x1080, on a white
      background, with no timestamp; each option that is given is kept, so a
      drawing rebuilt from all of its own fields is itself. */
  lemma DrawingDataDefaults(d: DrawingData)
    ensures MakeDrawingData(None, None, None, None, None)
         == DrawingData([], 1920, 1080, "#ffffff", None)
    ensures MakeDrawingData(Some(d.strokes), Some(d.canvasWidth), Some(d.canvasHeight),
                            Some(d.backgroundColor), Some(d.timestamp)) == d
  {
  }

  /** The colour of every stroke, in order. */
  function Colors(strokes: seq<DrawingStroke>): (cs: seq<string>)
    ensures |cs| == |strokes|
    ensures forall i :: 0 <= i < |strokes| ==> cs[i] == strokes[i].color
  {
    seq(|strokes|, i requires 0 <= i < |strokes| => strokes[i].color)
  }

  /** The optional shape of every stroke, in order. */
  function ShapeTypes(strokes: seq<DrawingStroke>): (ts: seq<Option<ShapeType>>)
    ensures |ts| == |strokes|
    ensures forall i :: 0 <= i < |strokes| ==> ts[i] == strokes[i].shapeType
  {
    seq(|strokes|, i requires 0 <= i < |strokes| => strokes[i].shapeType)
  }

  /** The shape name of every stroke that has a shape, in order: the keys
      the shape-count loop visits. Its length is the number of strokes whose
      shape is not null, every name is one of the five shape values, and each
      shape's name occurs as often as strokes with that shape. */
  function ShapeNames(strokes: seq<DrawingStroke>): (ns: seq<string>)
    ensures |ns| + multiset(ShapeTypes(strokes))[None] == |strokes|
    ensures forall n :: n in ns ==> n in ShapeTypeValues
    ensures forall n :: n in ns <==>
      exists i :: 0 <= i < |strokes| && strokes[i].shapeType.Some? && strokes[i].shapeType.value.Value() == n
    ensures forall t: ShapeType :: multiset(ns)[t.Value()] == multiset(ShapeTypes(strokes))[Some(t)]
  {
    if |strokes| == 0 then []
    else
      assert ShapeTypes(strokes) == [strokes[0].shapeType] + ShapeTypes(strokes[1..]);
      assert forall i :: 1 <= i < |strokes| ==> strokes[i] == strokes[1..][i - 1];
      var rest := ShapeNames(strokes[1..]);
      match strokes[0].shapeType
      case None => rest
      case Some(t) => ShapeTypeClosed(); [t.Value()] + rest
  }
}
