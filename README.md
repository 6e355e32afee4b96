# LabelmeWeb polygon-annotation engine, in Dafny

This project models the engine of LabelmeWeb, a browser tool for drawing labelled
polygons over an image. It covers five parts of the engine:

- **Normalized point model** (`geometry.dfy`, after `src/utils/math.tsx`). Every point
  carries the frame it was captured in. `RelativePoint` maps a point into another frame.
  The squared distance and the shoelace centroid are built on `RelativePoint`.
- **Drawing and colour helpers** (`draw.dfy`, after `src/utils/draw.tsx`). The browser's
  2D context becomes a `Surface` object that records the primitives drawn on it. The
  `rgba(...)` string helpers are modelled with JavaScript's `replace` and `split`
  semantics (`jstext.dfy`). The reserved-keyword override updates a region object in place.
- **LabelMe interchange** (`interchange.dfy`, after `src/utils/loader.tsx`). Regions are
  exported to LabelMe shapes in the image frame and imported back into the canvas frame.
  The round trip is exact over the reals.
- **Drawing canvas** (`canvas.dfy`, after `src/components/Canvas/canvas.tsx`). It is a
  class with the component's state fields. The mouse handlers change that state. The
  render pass is specified by the pure function `Scene`, and the methods that paint are
  proved to append exactly `Scene` to the surface.
- **Loader panel** (`loader.tsx` → `loader.dfy`). It is a class holding `error`,
  `errorMessage` and `imageData`. It assembles the export document and picks the import
  frame, falling back to 1280 x 720.

`records.dfy` holds the record types of `src/interfaces/`. The source's field `label` is
called `labelText`, because `label` is a Dafny keyword. `wrappers.dfy` holds `Option`.

Coordinates are Dafny `real`s. The source tests `distance <= 10` with a square root; the
model tests squared distance `<= 100` (`Near`). Random colour channels, uuids, file
contents, decoded image sizes and mouse positions are passed in as parameters.

When the source's colour parser reads a colour back, every component after the first
keeps the space that followed its comma (`ColorComponentsRoundTrip`). The control colours
built from it therefore contain doubled spaces, such as `rgba(12,  34,  56, 0.7)`. CSS
accepts these.

## Model

| member | source | states |
|---|---|---|
| Geometry.RelativePoint | src/utils/math.tsx:41-47 | the mapped point is tagged with the target frame (the source frame must be positive, as the code divides by it); identity and composition are stated below |
| Geometry.RelativePointOwnFrame | src/utils/math.tsx:43-44 | mapping a point into its own frame returns it unchanged |
| Geometry.RelativePointCompose | src/utils/math.tsx:41-47 | mapping into one frame and then into another equals mapping into the second directly |
| Geometry.SquaredDistance | src/utils/math.tsx:6-14 | the squared Euclidean distance after both points are mapped into the canvas frame; never negative |
| Geometry.SquaredDistanceSymmetric | src/utils/math.tsx:6-14 | the distance is symmetric in its two points |
| Geometry.SquaredDistanceSelf | src/utils/math.tsx:7-13 | a point is at distance zero from itself |
| Geometry.SquaredDistanceOfRelative | src/utils/math.tsx:7-13 | the distance depends only on where the points lie: mapping them into another frame first changes nothing |
| Geometry.SquaredDistanceScaleInvariant | src/utils/math.tsx:6-14 | scaling both points' frames and the comparison frame by one factor leaves the distance unchanged |
| Geometry.RelativePointScaled | src/utils/math.tsx:41-47 | scaling a point's frame and the target frame by one factor maps the point to the same coordinates |
| Geometry.SquaredDistanceOfSamePixels | src/utils/math.tsx:7-13 | two pairs of points that map to the same coordinates are at the same distance |
| Geometry.SuccessorIsModulo | src/utils/math.tsx:25 | the successor vertex index is (i + 1) % n |
| Geometry.Centroid | src/utils/math.tsx:33-37 | the reference centroid over the recursive shoelace sums: None exactly when the doubled signed area A2 is zero, otherwise a point in the canvas frame with 3 * A2 * x == cx and 3 * A2 * y == cy |
| Geometry.CalculateCentroidOfPolygon | src/utils/math.tsx:19-38 | the shoelace loop keeps the accumulators equal to the recursive sum over the first i edges; the result is the centroid (cx / 6A, cy / 6A) tagged with the canvas frame; it is None exactly when the signed area is zero |
| Geometry.RelativePoints | src/utils/math.tsx:41-47 | each point mapped into the frame, in order |
| Geometry.EdgeMomentsOfRelative | src/utils/math.tsx:24-30 | an edge contributes the same whichever frame its end points were captured in |
| Geometry.MomentsOfRelative | src/utils/math.tsx:22-31 | the accumulators do not depend on the frames the vertices were captured in |
| Geometry.CentroidOfRelative | src/utils/math.tsx:19-38 | the centroid of a polygon is unchanged when its vertices are first mapped into another frame |
| Geometry.EdgeAreaAntisymmetric | src/utils/math.tsx:27 | an edge and its reverse contribute opposite signed areas |
| Geometry.CentroidOfDegenerate | src/utils/math.tsx:19-38 | a polygon of one or two vertices has zero area, so it has no centroid |
| Geometry.EdgeMomentsInOwnFrame | src/utils/math.tsx:24-30 | an edge whose points are already in the target frame contributes its raw shoelace terms |
| Geometry.MomentsInOwnFrame | src/utils/math.tsx:22-31 | for points already in the target frame, the accumulators need no rescaling |
| Geometry.UnitSquareEdges | src/utils/math.tsx:27-30 | the four edge contributions of the unit square |
| Geometry.UnitSquareRawMoments | src/utils/math.tsx:22-31 | the unit square's accumulators are area 2, cx 3, cy 3 |
| Geometry.UnitSquareCentroid | src/utils/math.tsx:19-38 | the centroid of (0,0),(1,0),(1,1),(0,1) in a 1 x 1 frame is (0.5, 0.5) |
| JsText.NatToString | src/utils/draw.tsx:13 | `${n}` of a natural number: a non-empty string of digits, one digit exactly when n < 10, ending in the digit n % 10 |
| JsText.NatToStringInjective | src/components/Canvas/canvas.tsx:70 | different numbers render as different labels |
| JsText.ReplaceFirstAtStart | src/utils/draw.tsx:18 | `replace` with a pattern the string starts with removes that prefix |
| JsText.ReplaceFirstChar | src/utils/draw.tsx:18 | `replace(")", "")` removes only the first `)` |
| JsText.Split | src/utils/draw.tsx:18 | `split(",")` returns at least one part, and no part contains a comma |
| JsText.SplitWithoutSeparator | src/utils/draw.tsx:18 | a string without a comma splits into itself alone |
| JsText.SplitAtFirst | src/utils/draw.tsx:18 | splitting cuts at the first comma |
| Draw.StripRgbaWrapper | src/utils/draw.tsx:18 | removing `rgba(` and then the first `)` from a colour whose inner text has no `)` leaves exactly the inner text |
| Draw.SplitFourComponents | src/utils/draw.tsx:18 | splitting four comma-free texts joined by ", " gives the first unchanged and the other three with a leading space |
| Draw.GetColorFromString | src/utils/draw.tsx:17-19 | the components of a colour: at least one, none containing a comma |
| Draw.ColorComponentsRoundTrip | src/utils/draw.tsx:17-24 | parsing a colour built from components a, b, c, d that hold no comma or `)` gives [a, " "+b, " "+c, " "+d] |
| Draw.ChangeOpacityComponents | src/utils/draw.tsx:27-30 | changing the opacity keeps the first three parsed components and puts the new opacity fourth |
| Draw.RandomColorComponents | src/utils/draw.tsx:11-14 | a generated colour parses back into its three channels and the opacity |
| Draw.GenerateRandomColor | src/utils/draw.tsx:11-14 | an `rgba(` ... `)` text of at least 12 characters |
| Draw.GeneratedColorIsBuilt | src/utils/draw.tsx:11-24 | a generated colour is the colour that buildColorFromColorComponents builds from the three channels' decimal text and the opacity |
| Draw.BuildColorFromColorComponents | src/utils/draw.tsx:22-24 | an `rgba(` ... `)` text of at least 12 characters; with fewer than four components its length is that of a text whose fourth component is the 9-character `undefined` |
| Draw.BuildColorEndsWithOpacity | src/utils/draw.tsx:22-24 | a built colour ends with its fourth component followed by `)`; with fewer than four components it ends with the text `undefined)` |
| Draw.ChangeOpacityFromColor | src/utils/draw.tsx:27-30 | equals building a colour from the first three parsed components of the input and the new opacity |
| Draw.DigitsArePlain | src/utils/draw.tsx:13 | a channel rendered in decimal contains no comma or `)` |
| Draw.DrawCircle | src/utils/draw.tsx:35-54 | appends one circle of radius 5 at the point mapped into the canvas frame, in the given colour |
| Draw.DrawLine | src/utils/draw.tsx:58-69 | appends one segment between the two mapped end points, in the given colour |
| Draw.LineTos | src/utils/draw.tsx:81-84 | one lineTo per vertex, in order, each at the mapped vertex |
| Draw.PolygonFillLayout | src/utils/draw.tsx:74-89 | the fill is beginPath, moveTo the first mapped vertex, lineTo each later vertex in order, closePath, fill in the colour: n + 3 primitives |
| Draw.DrawPolygon | src/utils/draw.tsx:74-89 | appends exactly the polygon fill; the polygon must have a vertex, since the code reads points[0] |
| Draw.ControlColorsChangeOpacity | src/utils/draw.tsx:95-97 | the controls use the region colour with opacity "0.7" for vertices and "1" for edges |
| Draw.DrawPolygonControls | src/utils/draw.tsx:94-130 | appends exactly the controls of the polygon, vertex by vertex |
| Draw.DrawControl | src/utils/draw.tsx:99-129 | for one vertex: its marker, the edge from the previous vertex when there is one, and the closing edge at the last vertex |
| Draw.ControlsPrefixLayout | src/utils/draw.tsx:99-129 | before the last vertex, the controls are marker 0, then marker i and the edge from i - 1 for each later i |
| Draw.PolygonControlsLayout | src/utils/draw.tsx:94-130 | for n >= 1 vertices: 2n primitives, marker 0 first, marker i then edge (i - 1, i) for each later i, and the closing edge from the last vertex to the first at the end |
| Draw.DrawText | src/utils/draw.tsx:134-141 | appends the text at the mapped point in font `${fontSize}px ${font}` and the colour; the text has no position when there is no point (a polygon without centroid) |
| Draw.GetOverridingConfiguration | src/utils/draw.tsx:156-162 | returns the table entry for the region's label exactly when the label is a key, and nothing otherwise |
| Draw.OverridingConfigAgreement | src/utils/draw.tsx:144-162 | hasOverridingConfig holds exactly when getOverridingConfiguration finds an entry; then the override sets that entry's polygon colour, and otherwise leaves the region unchanged |
| Draw.Overridden | src/utils/draw.tsx:150-154 | the override keeps id, label and polygon; it sets the colour to the configured polygon colour when the label is reserved, and changes nothing otherwise |
| Draw.OverriddenIdempotent | src/utils/draw.tsx:150-154 | applying the override twice equals applying it once |
| Draw.OverriddenColorIgnoresPrevious | src/utils/draw.tsx:150-154 | a reserved label ends with its configured colour whatever colour it had before |
| Draw.OverrideDefaultConfigWithReservedKeywordConfig | src/utils/draw.tsx:150-154 | updates the region object in place to its overridden value |
| Interchange.ExportPoints | src/utils/loader.tsx:14-17 | one [x, y] pair per vertex, in order |
| Interchange.ExportFrame | src/utils/loader.tsx:15 | the image size, or 1280 x 720 when there is none |
| Interchange.MapDataAreaToShape | src/utils/loader.tsx:11-22 | keeps the label; the points are the vertices mapped into the image frame; group_id is null, shape_type is "polygon", and flags are empty |
| Interchange.ImportPoint | src/utils/loader.tsx:33-44 | a pair read in the document's image frame and mapped into the canvas frame, tagged with the canvas frame |
| Interchange.ImportPoints | src/utils/loader.tsx:32-45 | one canvas point per pair, in order |
| Interchange.MapLabelmeToDatashare | src/utils/loader.tsx:25-49 | one region per shape, in order, with the given fresh id, a random colour at opacity 0.5, the shape's label and one vertex per pair; every vertex has a frame when the canvas has a size |
| Interchange.ExportImportPoints | src/utils/loader.tsx:11-49 | exporting into image frame S and importing back into canvas C puts each vertex where mapping it straight into C would |
| Interchange.ExportImportPointsSameCanvas | src/utils/loader.tsx:11-49 | vertices captured on the canvas they are imported into come back unchanged |
| Loader.ExportDocument | src/components/Loader/loader.tsx:90-96 | version "4.6.0", empty flags, image width and height of the loaded image, and one shape per region in order, each region mapped with the loaded image's size |
| Loader.ExportImportDocument | src/components/Loader/loader.tsx:87-116 | re-importing an exported document gives back, per region, the label and the vertices mapped into the new canvas |
| Loader.ExportImportDocumentSameCanvas | src/components/Loader/loader.tsx:87-116 | regions drawn on the canvas they are re-imported into come back equal, except for the fresh id and colour |
| Loader.Loader.constructor | src/components/Loader/loader.tsx:33-35 | no error, no message, no image |
| Loader.Loader.ExportDataAreas | src/components/Loader/loader.tsx:87-100 | the callback runs exactly when regions, a canvas size and a loaded image are all present; it receives the assembled document and the canvas size |
| Loader.Loader.LoadImage | src/components/Loader/loader.tsx:38-62 | the error flag is cleared first; a decoded image is stored under the file's name with its natural size and URL; a failure sets the error and its message and keeps the old image |
| Loader.Loader.LoadData | src/components/Loader/loader.tsx:102-123 | the error flag is cleared when files are present; the regions handed on are the document mapped into the canvas size, or into 1280 x 720 when the size is unknown; image and message are untouched |
| Loader.Loader.DeleteImageData | src/components/Loader/loader.tsx:125-127 | forgets the loaded image and nothing else |
| Canvas.PaintArea | src/components/Canvas/canvas.tsx:124-141 | the per-region callback appends exactly the fill, the label at the centroid in white 16px Arial, and the controls |
| Canvas.AreaLabelAtCentroid | src/components/Canvas/canvas.tsx:127-137 | a region of n vertices paints 3n + 4 primitives; the one after the fill is its label, in "16px Arial" and white, and has a position exactly when the polygon has a centroid |
| Canvas.LabelFontText | src/components/Canvas/canvas.tsx:137 | the label font is "16px Arial" |
| Canvas.AreasAppend | src/components/Canvas/canvas.tsx:67-71 | committing a region leaves the picture of the earlier regions as it was and paints the new one after them |
| Canvas.InProgressLength | src/components/Canvas/canvas.tsx:159-181 | with a cursor, each in-progress vertex paints two primitives |
| Canvas.InProgressEntry | src/components/Canvas/canvas.tsx:159-181 | primitives 2i and 2i + 1 are those of in-progress vertex i |
| Canvas.InProgressLayout | src/components/Canvas/canvas.tsx:164-180 | vertex 0's marker is yellow exactly when the cursor is within 10 of it, and every other marker is red; vertex i > 0 draws the edge from i - 1, and vertex 0 draws the line from the last vertex to the cursor |
| Canvas.InProgressWithoutCursor | src/components/Canvas/canvas.tsx:164 | without a cursor position nothing of the polygon being drawn is painted |
| Canvas.Scene | src/components/Canvas/canvas.tsx:111-147 | the reference picture of one render pass: it starts with the clear and the image, and when not drawing or without a cursor it is exactly the background followed by every region's block |
| Canvas.DrawVertex | src/components/Canvas/canvas.tsx:159-181 | the per-vertex callback appends exactly that vertex's marker and line |
| Canvas.ClosesPolygon | src/components/Canvas/canvas.tsx:58-62 | a press closes the polygon exactly when there is a vertex and the first vertex is within 10 of the cursor, which is the condition under which draw paints that vertex yellow |
| Canvas.NewArea | src/components/Canvas/canvas.tsx:66-71 | the committed region has no id, the drawn vertices and the counter's decimal text as label, and is paintable when it has a framed vertex |
| Canvas.NewAreaColor | src/components/Canvas/canvas.tsx:69 | the committed region's colour reads back as its three channels at opacity 0.5 |
| Canvas.NumberedAppend | src/components/Canvas/canvas.tsx:67-72 | committing a non-empty polygon under the next number keeps the regions labelled "0", "1", ... in order |
| Canvas.FittedHeight | src/components/Canvas/canvas.tsx:188-190 | the new height is the largest whole number of pixels not above width * (height / width) |
| Canvas.Canvas.constructor | src/components/Canvas/canvas.tsx:23-35 | initial state: counter 0, no cursor, no image, not clicked, not drawing, no points, no regions |
| Canvas.Canvas.LabelsDistinct | src/components/Canvas/canvas.tsx:67-72 | the labels of committed regions are pairwise different |
| Canvas.Canvas.HandleMouseDown | src/components/Canvas/canvas.tsx:37-80 | always enters drawing mode and sets clicked. While the button is held, nothing else changes. A press within 10 of the first vertex (with at least one vertex) commits the vertices as a region labelled with the counter, bumps the counter, clears the vertices and leaves drawing mode. Any other press appends the cursor, tagged with the canvas size |
| Canvas.Canvas.CommitPolygon | src/components/Canvas/canvas.tsx:64-73 | the closing branch: appends the new region, bumps the counter, clears the vertices and leaves drawing mode; keeps the numbering invariant |
| Canvas.Canvas.HandleMouseUp | src/components/Canvas/canvas.tsx:106-108 | clears clicked and changes nothing else |
| Canvas.Canvas.DrawInCanvas | src/components/Canvas/canvas.tsx:111-147 | appends exactly the scene: clear, the image, every region in order, then the polygon being drawn when drawing |
| Canvas.Canvas.Draw | src/components/Canvas/canvas.tsx:150-183 | appends exactly the in-progress primitives for the vertices and the cursor |
| Canvas.Canvas.HandleMouseMove | src/components/Canvas/canvas.tsx:82-104 | with an image, it repaints the scene of the state before the move, then moves the cursor to the mouse position; without an image, nothing changes |
| Canvas.Canvas.HandleCanvasUpdate | src/components/Canvas/canvas.tsx:185-198 | with image and data, the height becomes the fitted height and the scene is repainted; stored points and regions are unchanged |
| Canvas.Canvas.ReceiveImageData | src/components/Canvas/canvas.tsx:219-239 | stores the new data, takes the parent's width, and loads the image from the data's URL |

## Left out

- The browser Canvas 2D API is modelled as a list of recorded primitives. Stroke and fill style resets, `textAlign`, and the `arc` angles are not recorded.
- Floating point is not modelled: coordinates are reals, and `Math.sqrt` is replaced by comparing squared distances.
- `Math.random` and `uuidv4` are not called. The colour channels and ids are parameters, and the opacity number is given as its decimal text.
- File reading, `JSON.parse`, `URL.createObjectURL` and image decoding are not modelled. Their outcomes are parameters: the file list, the `FileContent` value and the decoded size.
- The promise and callback timing of the loader, and React's effect scheduling, are not modelled. Each handler runs to completion and the last write wins.
- Canvas.Canvas.ReceiveImageData: merges the effects at canvas.tsx:219-239 into one step and does not repaint. When new data arrives while an image is shown, the effect at canvas.tsx:235-236 calls `handleCanvasUpdate` with the closure's previous image and data; this refits the height at the new width and repaints the previous image. That happens even when the new data is none, whereas the model's `HandleCanvasUpdate` does nothing once the data is none. The effect at canvas.tsx:200-213 does the same as `handleCanvasUpdate`, so it is not modelled separately.
- `canvasRef.current` and `getContext` are assumed present. Mouse positions arrive relative to the canvas.
- canvas.tsx:140 and canvas.tsx:177/179 call `drawPolygonControls` and `drawLine` without the colour that draw.tsx requires. As written, the later arguments move up one position: the size object lands in the `color` parameter and `canvasSize` is undefined, so each call would fail on its first use of them (`getColorFromString` calls `replace` on the size object; `calculateRelativePoint` reads `width` of undefined). The model draws what the calls evidently intend, with those colours taken as the parameters `controlsColor` and `lineColor`.
- The centroid of a polygon with zero signed area is non-finite in the source. The model returns None, and the label is then drawn with no position.
- Interchange.MapDataAreaToShape: takes the image size as an `Option` to express the `??` fallback. The loader always passes a size.
- Interchange.MapLabelmeToDatashare: requires a positive image size and pairs with both coordinates. On other documents the source still maps the points: a zero width or height gives non-finite coordinates, a negative width or height flips the sign of that coordinate only (x is divided by the width and y by the height, each on its own), and a pair with a missing entry gives NaN. The model does not describe those regions.
- Loader.Loader.LoadData: a document that is not well formed is handed on as nothing. The source would hand on its regions: with non-finite coordinates for a zero image width or height, the sign of x flipped for a negative width and the sign of y flipped for a negative height, and NaN for a pair with a missing entry. An empty file list also hands nothing on; in the source it throws.
- Canvas.Canvas.HandleCanvasUpdate: requires a positive image width and a fitted height of at least 1 pixel. The HTML canvas truncates a fractional height, and the model floors it.
- Canvas.Canvas.ReceiveImageData: requires a positive parent width.
- `isEditing` (canvas.tsx:32) is never read, so it is not modelled. There is no vertex editing, dragging, crowding check or region deletion in the source.
- The canvas closes a polygon with as few as one vertex. Such a region has no area (`CentroidOfDegenerate`).
- The older loader component `src/components/loader/Loader.tsx` is not part of this model, nor are the UI-only components.
