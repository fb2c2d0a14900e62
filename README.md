# Strategy-board renderer: marker geometry and layout resolution

This project models the marker geometry and layout resolution of a board
renderer. The renderer takes a board code for a game-strategy layout and draws
it as an image. The codec decodes the code into a background choice and an
ordered list of markers (icons, text, lines, rectangles, rings, discs and
fans). The renderer then turns each marker into one drawable node with
resolved numbers:

- its position on the 1024x768 raster, twice the layout position;
- its scale from a size percent, negated by a horizontal or vertical flip;
- its rotation;
- its opacity, from the hidden flag and the transparency percent.

Some variants also need their own geometry:

- Text is centred using an estimated width.
- A line has round handles at both ends.
- A line-area rectangle pivots about its centre.
- Partial rings and fan sectors pivot about the centre of their bounding box.
  That box is built from the arc ends and from the extreme of each cardinal
  direction the arc contains.

The board stacks the background image under a layer of marker nodes. Before
building that layer, the renderer reverses the marker list in place, so the
first decoded marker is painted last and ends on top.

Two small helpers are also modelled:

- choosing which code to decode: a code must start with `[stgy:`, and the
  renderer falls back to a built-in default layout when it does not or when
  decoding fails;
- building asset paths for backgrounds and marker images.

Modules:

- `Strategy` (strategy.dfy): the decoded layout, covering only the fields the
  renderer reads.
- `StaticImage` (static_image.dfy): asset paths.
- `BoardCode` (get_code.dfy): the code prefix check and its fallback.
- `Geometry` (geometry.dfy), which covers:
  - the angle-containment test;
  - bounding boxes;
  - ring-sector and fan-sector pivots;
  - the text-width estimate.
- `Renderer` (renderer.dfy): the background map, the per-variant marker
  routines, the dispatch on the marker's kind, and the board.

Decisions:

- Numbers are exact reals, not doubles.
- Angles are whole degrees. The sector start is -90 degrees and the cardinal
  directions are 0, 90, 180 and 270 degrees. JavaScript's
  `((a % m) + m) % m` is the non-negative remainder, which is Dafny's `%` on
  `int`.
- `cos` and `sin` are a parameter (`Geometry.Trig`). The lemmas assume only
  that both lie in [-1, 1] and that they take their exact values at the
  cardinal directions.
- The icon lookup `getIconConfig` is a parameter of `Renderer.Env`.
- The codec's `decode` is a parameter of `BoardCode.GetCode`. It returns
  `None` where the codec throws.
- An image is represented by the path it is loaded from.

Two consequences of the code are worth stating on their own:

- **Start direction.** The start direction is always inside the sector
  (`Geometry.StartIsContained`). So for a quarter sector from the top,
  `checkAngle(3π/2)` holds. The point it pushes is the arc's own start point,
  so the box is unchanged.
- **Text opacity.** Text nodes carry no opacity, so a hidden text marker is
  still drawn (`Renderer.HiddenMarkersAreTransparent`).

## Model

| member | source | states |
|---|---|---|
| `StaticImage.GetBoardUrl` | src/utils/staticImage.ts:1-4 | On the server, a background path is the background directory, the name verbatim, then `.webp`. |
| `StaticImage.GetIconUrl` | src/utils/staticImage.ts:6-9 | On the server, a marker image path is the objects directory, the name verbatim, then `.webp`. |
| `StaticImage.BoardUrlInjective` | src/utils/staticImage.ts:2 | Two background paths are equal exactly when their names are equal. |
| `StaticImage.IconUrlInjective` | src/utils/staticImage.ts:7 | Two marker image paths are equal exactly when their names are equal. |
| `StaticImage.BoardAndIconUrlsDiffer` | src/utils/staticImage.ts:2-7 | No background path equals any marker image path. |
| `BoardCode.SelectCode` | src/utils/getCode.ts:6-12 | The code handed to `decode` always passes the `[stgy:` prefix test. It is the caller's code or the default. It is the caller's code whenever that code passes the test. |
| `BoardCode.GetCode` | src/utils/getCode.ts:7-20 | No argument, or a code without the prefix, decodes the default. A prefixed code that decodes gives its own result. A code that fails to decode gives the default's result. The result is always the decoding of the caller's code or of the default. |
| `BoardCode.DefaultCodePassesPrefix` | src/utils/getCode.ts:3-7 | The default code passes the prefix test and is what a call without an argument decodes. |
| `BoardCode.GetCodeTotalWhenDefaultDecodes` | src/utils/getCode.ts:13-19 | When the default decodes, `getCode` never fails, whatever it is passed. |
| `Geometry.Normalize` | src/standalone/renderer.ts:195-197 | The normalised angle lies in [0, 360) and differs from the input by whole turns. |
| `Geometry.CheckAngle` | src/standalone/renderer.ts:194-203 | The test, written as the code computes it, holds exactly when the clockwise distance from the start (-90 degrees) to the angle is at most the span, both taken modulo 360. |
| `Geometry.StartIsContained` | src/standalone/renderer.ts:194-203 | The start direction (-90, or 270, degrees) is contained for every span. |
| `Geometry.QuarterSectorCardinals` | src/standalone/renderer.ts:205-212 | For a span of 90 degrees, 0 and 270 degrees are contained and 90 and 180 degrees are not. |
| `Geometry.LoHiTight` | src/standalone/renderer.ts:214-219 | The folded minimum and maximum bound every point, and each is attained by some point. |
| `Geometry.BoundingBoxIsTight` | src/standalone/renderer.ts:214-222 | The folded box holds every candidate, and each of its four sides touches a candidate. |
| `Geometry.DonutCandidates` | src/standalone/renderer.ts:171-212 | The first four candidates are the outer and inner arc ends, start before end. The remaining candidates are exactly the outer extremes of the cardinal directions the sector contains. |
| `Geometry.CalculateDonutOffset` | src/standalone/renderer.ts:148-225 | The list-and-fold computation returns (0,0) for a whole ring. Otherwise it returns the centre of the bounding box of the candidates. |
| `Geometry.DonutCandidatesAroundOffset` | src/standalone/renderer.ts:214-224 | Every candidate lies within half the box's extent of the offset on each axis. |
| `Geometry.DonutBoxReachesCardinals` | src/standalone/renderer.ts:205-212 | Each contained cardinal direction pushes the box out to the outer radius on that side. |
| `Geometry.DonutQuarterCandidates` | src/standalone/renderer.ts:171-212 | For a span of 90, the candidates are the four arc ends followed by the right and top outer extremes. |
| `Geometry.DonutQuarterOffset` | src/standalone/renderer.ts:157-224 | A quarter ring from the top pivots at (R/2, -R/2), whatever the inner radius between 0 and R. |
| `Geometry.CircleCandidates` | src/standalone/renderer.ts:290-319 | The first three candidates are the disc centre (512,512) and the rim points at the start and at the end of the arc. The remaining candidates are exactly the rim extremes of the cardinal directions the sector contains. |
| `Geometry.CircleEndsBox` | src/standalone/renderer.ts:289-302 | The box of the centre and both arc ends is the min/max of the three points, and it holds the centre. |
| `Geometry.GrowToCardinal` | src/standalone/renderer.ts:316-319 | When the box holds the centre, a cardinal rim extreme moves only the bound on its own side, as the code updates only that bound. |
| `Geometry.CalculateCircleOffset` | src/standalone/renderer.ts:280-325 | The stepwise min/max computation returns (512,512) for a whole disc. Otherwise it returns the centre of the bounding box of the fan's candidates. |
| `Geometry.CircleOffsetInRange` | src/standalone/renderer.ts:290-324 | The fan's box always holds the disc centre, and each offset coordinate lies in [256, 768]. |
| `Geometry.CircleQuarterOffset` | src/standalone/renderer.ts:280-324 | A quarter fan from the top pivots at (768, 256). |
| `Geometry.NonAsciiCount` | src/standalone/renderer.ts:45-49 | The number of code units at or above 128 never exceeds the text's length. |
| `Geometry.CalcTextWidth` | src/standalone/renderer.ts:42-51 | The loop's sum is the left-to-right sum of per-unit widths. |
| `Geometry.TextWidthClosedForm` | src/standalone/renderer.ts:42-51 | The width is 0.6 times the font size times (length plus the number of non-ASCII units). |
| `Geometry.TextWidthBounds` | src/standalone/renderer.ts:42-51 | The width lies between 0.6 and 1.2 font sizes per unit, and the empty text is zero wide. |
| `Renderer.BoardName` | src/standalone/renderer.ts:17-25 | Each background choice names a one-digit image, 1 to 7. |
| `Renderer.BoardMap` | src/standalone/renderer.ts:17-25 | Each background choice maps to a path made of the background directory, one digit from 1 to 7, and `.webp`. |
| `Renderer.BoardMapInjective` | src/standalone/renderer.ts:17-25 | Distinct background choices get distinct images. |
| `Renderer.CreateBoardLayer` | src/standalone/renderer.ts:27-39 | The background fills the 1024x768 scene. It is the checkered board when no background is given, and otherwise the board map's image. |
| `Renderer.Flipped` | src/standalone/renderer.ts:243-244 | A flip negates the scale on its axis, and no flip leaves the scale as it is. |
| `Renderer.Opacity` | src/standalone/renderer.ts:88 | A hidden marker's opacity is 0 whatever its transparency. Otherwise opacity plus transparency/100 is 1, and opacity lies in [0, 1] for a transparency in [0, 100]. |
| `Renderer.OpacityExamples` | src/standalone/renderer.ts:381 | Hidden gives 0; transparency 25 gives 0.75; no transparency gives 1. |
| `Renderer.CreateTextBlock` | src/standalone/renderer.ts:53-80 | Text sits at twice the layout position with font size 28. Its pivot is half the estimated width across and 14 down. |
| `Renderer.CreateLineBlock` | src/standalone/renderer.ts:83-123 | The line runs from twice the position to twice the end point. A missing end coordinate falls back to the start coordinate. Both handles sit exactly on the line's ends. The stroke is 2·(height ?? 6). Line and handles share the opacity rule. |
| `Renderer.CreateLineAoe` | src/standalone/renderer.ts:126-145 | The drawn size is twice the width and height (128 by default), and the pivot is half the drawn size. The scale is (size ?? 100)/100 on both axes and is never flipped. |
| `Renderer.CreateDonut` | src/standalone/renderer.ts:227-277 | A ring sits at (2x, 2y - 10), with the donut offset as pivot, flipped scales and rotation `angle ?? 0`. Its outer radius is 512 and its inner radius twice the marker's (0 by default). It is a full ring exactly when the span is 360 (the default). Otherwise it is a sector from -90 to -90 + span. |
| `Renderer.CircleArc` | src/standalone/renderer.ts:330 | A fan uses its own span, 90 when it has none. Every other disc marker is a whole disc. |
| `Renderer.CreateCircleAoe` | src/standalone/renderer.ts:327-368 | The disc image is 1024 square, with the fan offset as pivot and rotation `angle ?? 0`. It is clipped to the wedge from -90 to -90 + span exactly when the span is not 360. |
| `Renderer.CreateNormalIcon` | src/standalone/renderer.ts:371-401 | A missing icon config gives the empty image, and only then. Otherwise the image is twice the configured size and pivots about its centre. It keeps the crop, sits at twice the layout position, is rotated by `angle ?? 0`, and follows the scale and opacity rules. |
| `Renderer.CreateIcon` | src/standalone/renderer.ts:405-421 | Each of the six named kinds is built by its own routine and gets its own node variant, in both directions. Every other kind is built by the generic icon routine with the looked-up config. The empty placeholder appears exactly for an unnamed kind whose icon lookup fails. |
| `Renderer.HiddenMarkersAreTransparent` | src/standalone/renderer.ts:405-421 | Every node with an opacity follows the opacity rule, so a hidden marker is drawn at opacity 0. Only text and the empty placeholder have no opacity. |
| `Renderer.CircleAoeDefaults` | src/standalone/renderer.ts:327-356 | A circle area is unclipped and pivots at (512,512). A fan without a span is clipped to the top-right quarter and pivots at (768,256). |
| `Renderer.ReversedAt` | src/standalone/renderer.ts:439 | Position k of the reversed list holds position n-1-k of the original. |
| `Renderer.ReversedByIndex` | src/standalone/renderer.ts:439 | A list of equal length holding, at every position k, position n-1-k of the original is the reversal of the original. |
| `Renderer.PaintOrder` | src/standalone/renderer.ts:438-445 | Markers decoded as [A,B,C] paint as [C,B,A]. The first decoded marker paints last, on top. |
| `Renderer.ReverseObjects` | src/standalone/renderer.ts:439 | The marker array is reversed in place. The method is generic in the element type, since the reversal never inspects a marker. |
| `Renderer.MapObjects` | src/standalone/renderer.ts:439 | The map yields one result per marker, and result k is the image of marker k. |
| `Renderer.MapOfReversed` | src/standalone/renderer.ts:439 | Mapping the reversed list puts the image of original position n-1-k at position k. |
| `Renderer.RenderBoard` | src/standalone/renderer.ts:423-451 | The decoded marker array is left reversed. The stage is 1024x768 with the default-aware background beneath. The icon layer has exactly one node per marker, and node k is `createIcon` of marker n-1-k of the decoded order. |
| `Renderer.RenderDecoded` | src/standalone/renderer.ts:423-451 | Rendering a decoded layout gives the 1024x768 stage over that layout's background. Its icon layer holds one node per decoded marker, last decoded first. |

## Left out

- The render cache is not part of this model: content hashing, in-flight
  coalescing and persisted renders. `renderImage` is imported by
  src/controllers/imageController.ts but is not defined in
  src/utils/imageHelper.ts. `getCache`, `renderShape` and `renderWebp` are
  file-system and image-codec I/O.
- Drawing is not modelled. The `sceneFunc` and `clipFunc` paths appear only as
  the ring path and wedge they trace, and images only as their paths. Image
  loading, font registration and the stage container id are left out. So are
  the fixed text styling (font family, shadow) and the `console` warnings.
- Image loads in the source are asynchronous and joined with `Promise.all`;
  the model builds nodes in order. `Promise.all` keeps that order.
- `Renderer.RenderBoard` always yields a stage with one node per marker. In
  the source, a failing `loadImage` makes the whole `renderBoard` fail. The
  background load (src/standalone/renderer.ts:31) is awaited directly. The
  marker loads (lines 359 and 384) reject the `Promise.all` of line 440.
  Failed image loads are not modelled.
- `Renderer.RenderDecoded` copies the decoded marker list into a fresh array.
  So the in-place reversal of the caller's own list is visible only through
  `Renderer.RenderBoard`.
- Floating point is not modelled: the exact double values of `Math.cos`,
  `Math.sin`, π and the floating `%` in `checkAngle`. Angles are exact whole
  degrees.
- `Geometry.CheckAngle` and the sector routines take the span as whole
  degrees. The source accepts any number, so fractional spans are not
  represented.
- `Geometry.CalculateDonutOffset` starts its min/max fold at the first
  candidate instead of ±Infinity. The candidate list always holds at least
  four points, and the infinities are the identities of min and max, so the
  result is the same.
- `Geometry.CalcTextWidth` reads a Dafny `char` as one UTF-16 code unit. A
  character outside the Basic Multilingual Plane is two code units in the
  source (four average widths), which the model does not represent.
- `Geometry.Trig`: the lemmas assume only range and cardinal values of `cos`
  and `sin`. Properties that need other trigonometric identities are not
  stated.
- The icon lookup (`getIconConfig`) and the codec (`decode`, `encode`) are
  external and appear as parameters. Their own behaviour is not modelled.
- The browser branch of the asset paths (`new URL(..., import.meta.url)`) is
  not modelled, because it depends on the module's location.
- The HTTP routes and server start-up are not modelled
  (src/controllers/utilsController.ts, src/controllers/imageController.ts and
  index.ts). The same goes for the callback-driven image-load tracking in
  src/utils/loadImage.ts and the browser helpers in src/utils/resize.ts,
  src/utils/useResize.ts and src/utils/debounce.ts. Only the scene size
  1024x768 is kept.
