/** The shape compositor: every decoded marker becomes one drawable node with
    resolved numbers, and the board becomes a stage holding the background
    image beneath a layer of those nodes.

    The canvas library's objects are records of the numbers they are built
    with; an image is named by the path it is loaded from. The icon lookup
    (`getIconConfig`) and `cos`/`sin` are parameters gathered in `Env`. */
module Renderer {
  import opened Strategy
  import opened Geometry
  import StaticImage

  /** Size of the raster surface. */
  const SceneWidth: int := 1024
  const SceneHeight: int := 768

  // ---------------------------------------------------------------------
  // Backgrounds

  /** The image name behind each background choice: one digit, 1 to 7. */
  function BoardName(background: BackgroundType): (name: string)
    ensures |name| == 1 && '1' <= name[0] <= '7'
  {
    match background
    case NoBackground => "1"
    case Checkered => "2"
    case CheckeredCircle => "3"
    case CheckeredSquare => "4"
    case Grey => "5"
    case GreyCircle => "6"
    case GreySquare => "7"
  }

  /** `boardMap`: the background image of each background choice, a
      one-digit name under the background directory. */
  function BoardMap(background: BackgroundType): (url: string)
    ensures |url| == |StaticImage.BoardDir| + 1 + |StaticImage.Extension|
    ensures url[..|StaticImage.BoardDir|] == StaticImage.BoardDir
    ensures '1' <= url[|StaticImage.BoardDir|] <= '7'
    ensures url[|url| - |StaticImage.Extension|..] == StaticImage.Extension
  {
    StaticImage.GetBoardUrl(BoardName(background))
  }

  /** Distinct background choices show distinct images. */
  lemma BoardMapInjective(a: BackgroundType, b: BackgroundType)
    ensures BoardMap(a) == BoardMap(b) <==> a == b
  {
    StaticImage.BoardUrlInjective(BoardName(a), BoardName(b));
  }

  /** The full-bleed background image of the board layer. */
  datatype BoardImage = BoardImage(url: string, width: int, height: int)

  /** `createBoardLayer`, whose background defaults to checkered. */
  function CreateBoardLayer(background: Option<BackgroundType>): (image: BoardImage)
    ensures image.width == SceneWidth && image.height == SceneHeight
    ensures background == None ==> image.url == StaticImage.GetBoardUrl("2")
    ensures background.Some? ==> image.url == BoardMap(background.value)
  {
    BoardImage(BoardMap(background.GetOr(Checkered)), SceneWidth, SceneHeight)
  }

  // ---------------------------------------------------------------------
  // Transforms shared by the marker routines

  /** Raster space has twice the layout's resolution. */
  function Raster(coordinate: real): real {
    coordinate * 2.0
  }

  /** `(size ?? 100) / 100`. */
  function Scale(size: Option<real>): real {
    size.GetOr(100.0) / 100.0
  }

  /** A flip mirrors the marker by negating its scale along that axis. */
  function Flipped(scale: real, flip: bool): (s: real)
    ensures flip ==> s == -scale
    ensures !flip ==> s == scale
  {
    scale * (if flip then -1.0 else 1.0)
  }

  /** The opacity rule shared by every variant that has one: a hidden
      marker is fully transparent whatever its transparency; otherwise
      opacity and transparency (as a fraction) add up to one. */
  function Opacity(hidden: bool, transparency: Option<real>): (o: real)
    ensures hidden ==> o == 0.0
    ensures !hidden ==> o + transparency.GetOr(0.0) / 100.0 == 1.0
    ensures !hidden && 0.0 <= transparency.GetOr(0.0) <= 100.0 ==> 0.0 <= o <= 1.0
  {
    if hidden then 0.0 else (100.0 - transparency.GetOr(0.0)) / 100.0
  }

  /** Examples of the opacity rule. */
  lemma OpacityExamples(transparency: Option<real>)
    ensures Opacity(true, transparency) == 0.0
    ensures Opacity(false, Some(25.0)) == 0.75
    ensures Opacity(false, None) == 1.0
  {
  }

  // ---------------------------------------------------------------------
  // Nodes

  /** A round handle drawn at a line end. */
  datatype Handle = Handle(x: real, y: real, radius: real, fill: string, opacity: real,
                           stroke: string, strokeWidth: real)

  /** The outline a ring shape is filled along: a whole ring, or the sector
      between two angles (in degrees) of the outer and inner circles. */
  datatype RingPath =
    | FullRing(outerRadius: real, innerRadius: real)
    | RingSector(outerRadius: real, innerRadius: real, startAngle: int, endAngle: int)

  /** The wedge a fan's disc image is clipped to. */
  datatype Wedge = Wedge(centreX: real, centreY: real, radius: real, startAngle: int, endAngle: int)

  /** The crop rectangle of a sprite-sheet icon. */
  datatype Crop = Crop(x: real, y: real, width: real, height: real)

  /** What `getIconConfig` yields for a marker: the image name, the half
      size in layout units, and an optional crop. */
  datatype IconConfig = IconConfig(src: string, size: real, crop: Option<Crop>)

  /** One drawable node, per variant. */
  datatype Node =
    | TextNode(text: Option<string>, color: Option<string>, x: real, y: real,
               fontSize: real, offsetX: real, offsetY: real)
    | LineGroup(points: seq<real>, stroke: string, strokeWidth: real, opacity: real,
                startHandle: Handle, endHandle: Handle)
    | RectNode(x: real, y: real, offsetX: real, offsetY: real, width: real, height: real,
               fill: string, scaleX: real, scaleY: real, rotation: real, opacity: real)
    | DonutGroup(x: real, y: real, scaleX: real, scaleY: real, opacity: real,
                 offsetX: real, offsetY: real, rotation: real, path: RingPath, fill: string)
    | CircleGroup(x: real, y: real, rotation: real, scaleX: real, scaleY: real, opacity: real,
                  offsetX: real, offsetY: real, clip: Option<Wedge>,
                  imageUrl: string, imageWidth: real, imageHeight: real)
    | ImageNode(url: string, width: real, height: real, offsetX: real, offsetY: real,
                x: real, y: real, scaleX: real, scaleY: real, rotation: real, opacity: real,
                crop: Option<Crop>)
    | EmptyImage

  /** The external lookups the compositor relies on. */
  datatype Env = Env(iconConfig: StrategyObject -> Option<IconConfig>, trig: Trig)

  /** The opacity a node is drawn with; text and the empty placeholder have
      none of their own. */
  function NodeOpacity(n: Node): Option<real> {
    match n
    case TextNode(_, _, _, _, _, _, _) => None
    case EmptyImage => None
    case LineGroup(_, _, _, o, _, _) => Some(o)
    case RectNode(_, _, _, _, _, _, _, _, _, _, o) => Some(o)
    case DonutGroup(_, _, _, _, o, _, _, _, _, _) => Some(o)
    case CircleGroup(_, _, _, _, _, o, _, _, _, _, _, _) => Some(o)
    case ImageNode(_, _, _, _, _, _, _, _, _, _, o, _) => Some(o)
  }

  // ---------------------------------------------------------------------
  // Marker routines

  const TextFontSize: real := 28.0

  /** `createTextBlock`: text centred on the marker, using the estimated
      width of its text (the empty text when absent). */
  function CreateTextBlock(data: StrategyObject): (n: Node)
    ensures n.TextNode? && n.text == data.text && n.fontSize == TextFontSize
    ensures n.x == 2.0 * data.x && n.y == 2.0 * data.y
    ensures 2.0 * n.offsetX == TextWidth(data.text.GetOr(""), TextFontSize)
    ensures n.offsetY == 14.0
  {
    var text := data.text.GetOr("");
    var textWidth := TextWidth(text, TextFontSize);
    TextNode(data.text, data.color, Raster(data.x), Raster(data.y),
             TextFontSize, textWidth / 2.0, TextFontSize / 2.0)
  }

  const HandleRadius: real := 8.0

  /** `createLineBlock`: a line from the marker to its end point (the marker
      itself when absent) with a round handle on each end. */
  function CreateLineBlock(data: StrategyObject): (n: Node)
    ensures n.LineGroup? && |n.points| == 4
    ensures n.points[0] == 2.0 * data.x && n.points[1] == 2.0 * data.y
    ensures n.points[2] == 2.0 * data.endX.GetOr(data.x) && n.points[3] == 2.0 * data.endY.GetOr(data.y)
    ensures n.startHandle.x == n.points[0] && n.startHandle.y == n.points[1]
    ensures n.endHandle.x == n.points[2] && n.endHandle.y == n.points[3]
    ensures n.strokeWidth == 2.0 * data.height.GetOr(6.0)
    ensures n.opacity == n.startHandle.opacity == n.endHandle.opacity == Opacity(data.hidden, data.transparency)
  {
    var startX := Raster(data.x);
    var startY := Raster(data.y);
    var endX := Raster(data.endX.GetOr(data.x));
    var endY := Raster(data.endY.GetOr(data.y));
    var opacity := Opacity(data.hidden, data.transparency);
    LineGroup([startX, startY, endX, endY], data.color.GetOr("#ff8000"), data.height.GetOr(6.0) * 2.0, opacity,
              Handle(startX, startY, HandleRadius, "white", opacity, "#43A8D8", 2.0),
              Handle(endX, endY, HandleRadius, "white", opacity, "#43A8D8", 2.0))
  }

  /** `createLineAoe`: a rectangle of twice the marker's width and height,
      pivoting about its own centre, scaled uniformly (never flipped). */
  function CreateLineAoe(data: StrategyObject): (n: Node)
    ensures n.RectNode?
    ensures n.width == 2.0 * data.width.GetOr(128.0) && n.height == 2.0 * data.height.GetOr(128.0)
    ensures n.offsetX == n.width / 2.0 && n.offsetY == n.height / 2.0
    ensures n.scaleX == n.scaleY == data.size.GetOr(100.0) / 100.0
    ensures n.x == 2.0 * data.x && n.y == 2.0 * data.y
    ensures n.rotation == data.angle.GetOr(0.0)
    ensures n.opacity == Opacity(data.hidden, data.transparency)
  {
    var width := data.width.GetOr(128.0);
    var height := data.height.GetOr(128.0);
    var scale := Scale(data.size);
    RectNode(Raster(data.x), Raster(data.y), width, height, width * 2.0, height * 2.0,
             data.color.GetOr("#ff8000"), scale, scale, data.angle.GetOr(0.0),
             Opacity(data.hidden, data.transparency))
  }

  const OuterRadius: real := 512.0

  /** `createDonut`: a ring of outer radius 512 and inner radius twice the
      marker's, over the marker's span (a whole ring by default), raised 10
      pixels and pivoting about the centre of the sector's bounding box. */
  function CreateDonut(data: StrategyObject, t: Trig): (n: Node)
    ensures n.DonutGroup?
    ensures n.x == 2.0 * data.x && n.y == 2.0 * data.y - 10.0
    ensures Point(n.offsetX, n.offsetY)
      == DonutOffset(data.arcAngle.GetOr(360), OuterRadius, 2.0 * data.donutRadius.GetOr(0.0), t)
    ensures data.arcAngle.GetOr(360) == 360 <==> n.path.FullRing?
    ensures n.path.outerRadius == OuterRadius && n.path.innerRadius == 2.0 * data.donutRadius.GetOr(0.0)
    ensures n.rotation == data.angle.GetOr(0.0)
    ensures n.path.RingSector? ==>
      n.path.startAngle == StartAngle && n.path.endAngle == StartAngle + data.arcAngle.GetOr(360)
    ensures n.scaleX == Flipped(Scale(data.size), data.horizontalFlip)
    ensures n.scaleY == Flipped(Scale(data.size), data.verticalFlip)
    ensures n.opacity == Opacity(data.hidden, data.transparency)
  {
    var scale := Scale(data.size);
    var innerRadius := data.donutRadius.GetOr(0.0) * 2.0;
    var arcAngle := data.arcAngle.GetOr(360);
    var offset := DonutOffset(arcAngle, OuterRadius, innerRadius, t);
    var path :=
      if arcAngle == 360 then FullRing(OuterRadius, innerRadius)
      else RingSector(OuterRadius, innerRadius, StartAngle, EndAngle(arcAngle));
    DonutGroup(Raster(data.x), Raster(data.y) - 10.0,
               Flipped(scale, data.horizontalFlip), Flipped(scale, data.verticalFlip),
               Opacity(data.hidden, data.transparency), offset.x, offset.y,
               data.angle.GetOr(0.0), path, "orange")
  }

  /** The span of a disc-area marker: a fan's own span (90 degrees by
      default), a whole disc for any other kind. */
  function CircleArc(data: StrategyObject): (arc: int)
    ensures data.kind != "fan_aoe" ==> arc == 360
    ensures data.kind == "fan_aoe" ==> arc == data.arcAngle.GetOr(90)
  {
    if data.kind == "fan_aoe" then data.arcAngle.GetOr(90) else 360
  }

  /** `createCircleAoe`: the 1024-pixel disc image, pivoting about the
      centre of its sector's bounding box and clipped to the sector when the
      span is not a whole turn. */
  function CreateCircleAoe(data: StrategyObject, t: Trig): (n: Node)
    ensures n.CircleGroup?
    ensures n.x == 2.0 * data.x && n.y == 2.0 * data.y
    ensures n.rotation == data.angle.GetOr(0.0)
    ensures Point(n.offsetX, n.offsetY) == CircleOffset(CircleArc(data), t)
    ensures n.clip == None <==> CircleArc(data) == 360
    ensures n.clip.Some? ==> n.clip.value == Wedge(DiscCentre, DiscCentre, DiscRadius, StartAngle, StartAngle + CircleArc(data))
    ensures n.imageUrl == StaticImage.GetIconUrl("circle_aoe") && n.imageWidth == n.imageHeight == 1024.0
    ensures n.scaleX == Flipped(Scale(data.size), data.horizontalFlip)
    ensures n.scaleY == Flipped(Scale(data.size), data.verticalFlip)
    ensures n.opacity == Opacity(data.hidden, data.transparency)
  {
    var scale := Scale(data.size);
    var arcAngle := CircleArc(data);
    var offset := CircleOffset(arcAngle, t);
    var clip :=
      if arcAngle != 360 then Some(Wedge(DiscCentre, DiscCentre, DiscRadius, StartAngle, EndAngle(arcAngle)))
      else None;
    CircleGroup(Raster(data.x), Raster(data.y), data.angle.GetOr(0.0),
                Flipped(scale, data.horizontalFlip), Flipped(scale, data.verticalFlip),
                Opacity(data.hidden, data.transparency), offset.x, offset.y, clip,
                StaticImage.GetIconUrl("circle_aoe"), 1024.0, 1024.0)
  }

  /** `createNormalIcon`: the looked-up image, twice its configured size,
      pivoting about its centre; an empty image when the lookup fails. */
  function CreateNormalIcon(data: StrategyObject, config: Option<IconConfig>): (n: Node)
    ensures config == None <==> n == EmptyImage
    ensures config.Some? ==> n.ImageNode? && n.url == StaticImage.GetIconUrl(config.value.src)
    ensures config.Some? ==> (n.ImageNode? &&
      n.width == n.height == 2.0 * config.value.size &&
      n.offsetX == n.width / 2.0 && n.offsetY == n.height / 2.0 && n.crop == config.value.crop)
    ensures config.Some? ==> (n.ImageNode? && n.x == 2.0 * data.x && n.y == 2.0 * data.y &&
      n.scaleX == Flipped(Scale(data.size), data.horizontalFlip) &&
      n.scaleY == Flipped(Scale(data.size), data.verticalFlip) &&
      n.rotation == data.angle.GetOr(0.0) &&
      n.opacity == Opacity(data.hidden, data.transparency))
  {
    match config
    case None => EmptyImage
    case Some(c) =>
      var scale := Scale(data.size);
      ImageNode(StaticImage.GetIconUrl(c.src), c.size * 2.0, c.size * 2.0, c.size, c.size,
                Raster(data.x), Raster(data.y),
                Flipped(scale, data.horizontalFlip), Flipped(scale, data.verticalFlip),
                data.angle.GetOr(0.0), Opacity(data.hidden, data.transparency), c.crop)
  }

  /** `createIcon`: the closed dispatch on the marker's kind; every kind not
      named goes to the generic icon routine. */
  function CreateIcon(data: StrategyObject, env: Env): (n: Node)
    ensures n.RectNode? <==> data.kind == "line_aoe"
    ensures n.DonutGroup? <==> data.kind == "donut"
    ensures n.TextNode? <==> data.kind == "text"
    ensures n.LineGroup? <==> data.kind == "line"
    ensures n.CircleGroup? <==> data.kind == "circle_aoe" || data.kind == "fan_aoe"
    ensures n.ImageNode? || n.EmptyImage? <==>
      data.kind !in {"line_aoe", "donut", "text", "line", "circle_aoe", "fan_aoe"}
    ensures data.kind == "line_aoe" ==> n == CreateLineAoe(data)
    ensures data.kind == "donut" ==> n == CreateDonut(data, env.trig)
    ensures data.kind == "text" ==> n == CreateTextBlock(data)
    ensures data.kind == "line" ==> n == CreateLineBlock(data)
    ensures data.kind == "circle_aoe" || data.kind == "fan_aoe" ==> n == CreateCircleAoe(data, env.trig)
    ensures data.kind !in {"line_aoe", "donut", "text", "line", "circle_aoe", "fan_aoe"} ==>
      n == CreateNormalIcon(data, env.iconConfig(data))
    ensures n == EmptyImage <==>
      data.kind !in {"line_aoe", "donut", "text", "line", "circle_aoe", "fan_aoe"} && env.iconConfig(data) == None
  {
    match data.kind
    case "line_aoe" => CreateLineAoe(data)
    case "donut" => CreateDonut(data, env.trig)
    case "text" => CreateTextBlock(data)
    case "line" => CreateLineBlock(data)
    case "circle_aoe" => CreateCircleAoe(data, env.trig)
    case "fan_aoe" => CreateCircleAoe(data, env.trig)
    case _ => CreateNormalIcon(data, env.iconConfig(data))
  }

  /** The opacity rule holds for every node that has an opacity: a hidden
      marker is drawn fully transparent. Only text and the empty placeholder
      have no opacity, and text ignores the hidden flag. */
  lemma HiddenMarkersAreTransparent(data: StrategyObject, env: Env)
    ensures var n := CreateIcon(data, env);
      NodeOpacity(n).Some? ==> NodeOpacity(n).value == Opacity(data.hidden, data.transparency)
    ensures var n := CreateIcon(data, env);
      data.hidden && NodeOpacity(n).Some? ==> NodeOpacity(n).value == 0.0
    ensures NodeOpacity(CreateIcon(data, env)) == None <==>
      data.kind == "text" || CreateIcon(data, env) == EmptyImage
  {
  }

  /** A fan without a span is a quarter disc clipped to the wedge from the
      top to the right; a circle area is the whole disc, unclipped. */
  lemma CircleAoeDefaults(data: StrategyObject, t: Trig)
    requires ValidTrig(t)
    ensures data.kind == "circle_aoe" ==>
      CreateCircleAoe(data, t).clip == None &&
      CreateCircleAoe(data, t).offsetX == CreateCircleAoe(data, t).offsetY == 512.0
    ensures data.kind == "fan_aoe" && data.arcAngle == None ==>
      CreateCircleAoe(data, t).clip == Some(Wedge(512.0, 512.0, 512.0, -90, 0)) &&
      CreateCircleAoe(data, t).offsetX == 768.0 && CreateCircleAoe(data, t).offsetY == 256.0
  {
    CircleQuarterOffset(t);
  }

  // ---------------------------------------------------------------------
  // The board

  /** The marker list in reverse: the last element first. */
  function Reversed<T>(s: seq<T>): (r: seq<T>)
    ensures |r| == |s|
  {
    if |s| == 0 then [] else [s[|s| - 1]] + Reversed(s[..|s| - 1])
  }

  /** Position `k` of the reversed list holds position `|s| - 1 - k` of the
      original. */
  lemma {:induction false} ReversedAt<T>(s: seq<T>, k: int)
    requires 0 <= k < |s|
    ensures Reversed(s)[k] == s[|s| - 1 - k]
  {
    if k > 0 {
      ReversedAt(s[..|s| - 1], k - 1);
    }
  }

  /** A list holding, at each position `k`, position `|s| - 1 - k` of `s`
      is the reversal of `s`. */
  lemma ReversedByIndex<T>(s: seq<T>, r: seq<T>)
    requires |r| == |s|
    requires forall k :: 0 <= k < |s| ==> r[k] == s[|s| - 1 - k]
    ensures r == Reversed(s)
  {
    forall k | 0 <= k < |s|
      ensures r[k] == Reversed(s)[k]
    {
      ReversedAt(s, k);
    }
  }

  /** Markers decoded as [A, B, C] are painted C first and A last, so the
      first decoded marker ends on top. */
  lemma PaintOrder<T>(a: T, b: T, c: T, s: seq<T>)
    requires |s| > 0
    ensures Reversed([a, b, c]) == [c, b, a]
    ensures Reversed(s)[|s| - 1] == s[0] && Reversed(s)[0] == s[|s| - 1]
  {
    ReversedByIndex([a, b, c], [c, b, a]);
    ReversedAt(s, |s| - 1);
    ReversedAt(s, 0);
  }

  /** `Array.prototype.reverse`, in place. */
  method ReverseObjects<T>(objects: array<T>)
    modifies objects
    ensures objects[..] == Reversed(old(objects[..]))
  {
    ghost var before := objects[..];
    var lo, hi := 0, objects.Length - 1;
    while lo < hi
      invariant 0 <= lo <= hi + 1 <= objects.Length && lo + hi == objects.Length - 1 && |before| == objects.Length
      invariant forall k :: 0 <= k < lo ==> objects[k] == before[objects.Length - 1 - k]
      invariant forall k :: hi < k < objects.Length ==> objects[k] == before[objects.Length - 1 - k]
      invariant forall k :: lo <= k <= hi ==> objects[k] == before[k]
    {
      objects[lo], objects[hi] := objects[hi], objects[lo];
      lo, hi := lo + 1, hi - 1;
    }
    ReversedByIndex(before, objects[..]);
  }

  /** `Array.prototype.map`: one result per element, in order. */
  method MapObjects<T, U>(objects: array<T>, f: T -> U) returns (results: seq<U>)
    ensures |results| == objects.Length
    ensures forall k :: 0 <= k < objects.Length ==> results[k] == f(objects[k])
  {
    results := [];
    for i := 0 to objects.Length
      invariant |results| == i
      invariant forall k :: 0 <= k < i ==> results[k] == f(objects[k])
    {
      results := results + [f(objects[i])];
    }
  }

  /** Mapping the reversed list puts the image of position `|s| - 1 - k` of
      the original at position `k`. */
  lemma MapOfReversed<T, U>(s: seq<T>, r: seq<T>, f: T -> U, results: seq<U>)
    requires r == Reversed(s) && |results| == |r|
    requires forall k :: 0 <= k < |r| ==> results[k] == f(r[k])
    ensures forall k :: 0 <= k < |s| ==> results[k] == f(s[|s| - 1 - k])
  {
    forall k | 0 <= k < |s|
      ensures results[k] == f(s[|s| - 1 - k])
    {
      ReversedAt(s, k);
    }
  }

  /** The stage: the background layer first, so beneath, then the icon layer
      whose nodes paint in order. */
  datatype Stage = Stage(width: int, height: int, boardLayer: BoardImage, iconLayer: seq<Node>)

  /** `renderBoard`: reverses the decoded marker list in place, builds one
      node per marker in that order, and stacks the icon layer over the
      background. */
  method RenderBoard(background: Option<BackgroundType>, objects: array<StrategyObject>, env: Env)
    returns (stage: Stage)
    modifies objects
    ensures objects[..] == Reversed(old(objects[..]))
    ensures stage.width == SceneWidth && stage.height == SceneHeight
    ensures stage.boardLayer == CreateBoardLayer(background)
    ensures |stage.iconLayer| == objects.Length
    ensures forall k :: 0 <= k < objects.Length ==>
      stage.iconLayer[k] == CreateIcon(old(objects[objects.Length - 1 - k]), env)
  {
    var boardLayer := CreateBoardLayer(background);
    ghost var decoded := objects[..];
    ReverseObjects(objects);
    // Every node is an object, so the source's truthiness test always
    // passes and every node is kept.
    var iconLayer := MapObjects(objects, data => CreateIcon(data, env));
    MapOfReversed(decoded, objects[..], data => CreateIcon(data, env), iconLayer);
    stage := Stage(SceneWidth, SceneHeight, boardLayer, iconLayer);
  }

  /** `renderBoard(boardData)` on a decoded layout: the layout's marker list
      is handed over as an array, which `RenderBoard` reverses. */
  method RenderDecoded(boardData: DecodeResult, env: Env) returns (stage: Stage)
    ensures stage.width == SceneWidth && stage.height == SceneHeight
    ensures stage.boardLayer == CreateBoardLayer(boardData.boardBackground)
    ensures |stage.iconLayer| == |boardData.objects|
    ensures forall k :: 0 <= k < |boardData.objects| ==>
      stage.iconLayer[k] == CreateIcon(boardData.objects[|boardData.objects| - 1 - k], env)
  {
    var objects := new StrategyObject[|boardData.objects|](k requires 0 <= k < |boardData.objects| => boardData.objects[k]);
    assert objects[..] == boardData.objects;
    stage := RenderBoard(boardData.boardBackground, objects, env);
  }
}
