/**
 * The drawing canvas (src/components/Canvas/canvas.tsx): the click-driven
 * state machine that turns mouse presses into polygons, and the render
 * pass that repaints the canvas from that state.
 *
 * Each handler reads the component state as it was when the handler was
 * created (a React closure) and its state updates take effect in order,
 * the last write to a field winning. The canvas element is taken to be
 * mounted; the mouse position arrives already relative to its top-left
 * corner, and the random colour channels of a new region are passed in.
 */
module Canvas {
  import opened Wrappers
  import opened Geometry
  import opened Records
  import opened JsText
  import opened Draw

  /** The opacity text of a new region's colour (`${0.5}`). */
  const NewAreaOpacity: string := "0.5"

  const LabelFontSize: nat := 16
  const LabelFont: string := "Arial"
  const LabelColor: string := "white"

  /** The first in-progress vertex when a click there would close the polygon. */
  const CloseMarkerColor: string := "yellow"
  const VertexColor: string := "red"

  // ---------------------------------------------------------------------
  // The render pass, as values
  // ---------------------------------------------------------------------

  /** A committed region can be painted: it has a vertex and every vertex has a frame. */
  predicate Paintable(dataArea: DataArea) {
    |dataArea.polygon.points| >= 1 && FramedArea(dataArea)
  }

  /** What the render pass issues for one committed region: fill, label at the centroid, controls. */
  function AreaPrimitives(dataArea: DataArea, canvasSize: Size, controlsColor: string): seq<Primitive>
    requires Paintable(dataArea) && PositiveSize(canvasSize)
  {
    var points := dataArea.polygon.points;
    PolygonFill(points, dataArea.color, canvasSize)
    + [TextOf(dataArea.labelText, Centroid(points, canvasSize), LabelFontSize, LabelFont, LabelColor, canvasSize)]
    + PolygonControls(points, controlsColor, canvasSize)
  }

  /** The blocks one after the other. */
  function Concat<T>(blocks: seq<seq<T>>): seq<T>
    decreases |blocks|
  {
    if |blocks| == 0 then [] else Concat(blocks[..|blocks| - 1]) + blocks[|blocks| - 1]
  }

  lemma ConcatSnoc<T>(blocks: seq<seq<T>>, block: seq<T>)
    ensures Concat(blocks + [block]) == Concat(blocks) + block
  {
    assert (blocks + [block])[..|blocks|] == blocks;
  }

  /** Extending a prefix of the blocks by one block extends their concatenation by that block. */
  lemma ConcatPrefixStep<T>(blocks: seq<seq<T>>, k: nat)
    requires k < |blocks|
    ensures Concat(blocks[..k + 1]) == Concat(blocks[..k]) + blocks[k]
  {
    assert blocks[..k + 1] == blocks[..k] + [blocks[k]];
    ConcatSnoc(blocks[..k], blocks[k]);
  }

  lemma ConcatWhole<T>(blocks: seq<seq<T>>)
    ensures Concat(blocks[..|blocks|]) == Concat(blocks)
  {
    assert blocks[..|blocks|] == blocks;
  }

  /** The primitives of each committed region, region by region. */
  function AreaBlocks(dataAreas: seq<DataArea>, canvasSize: Size, controlsColor: string): (blocks: seq<seq<Primitive>>)
    requires PositiveSize(canvasSize)
    requires forall i :: 0 <= i < |dataAreas| ==> Paintable(dataAreas[i])
    ensures |blocks| == |dataAreas|
    ensures forall i :: 0 <= i < |blocks| ==> blocks[i] == AreaPrimitives(dataAreas[i], canvasSize, controlsColor)
  {
    seq(|dataAreas|, i requires 0 <= i < |dataAreas| => AreaPrimitives(dataAreas[i], canvasSize, controlsColor))
  }

  lemma AreaPrimitivesParts(dataArea: DataArea, canvasSize: Size, controlsColor: string)
    requires Paintable(dataArea) && PositiveSize(canvasSize)
    ensures AreaPrimitives(dataArea, canvasSize, controlsColor)
         == PolygonFill(dataArea.polygon.points, dataArea.color, canvasSize)
          + [TextOf(dataArea.labelText, Centroid(dataArea.polygon.points, canvasSize), LabelFontSize, LabelFont, LabelColor, canvasSize)]
          + PolygonControls(dataArea.polygon.points, controlsColor, canvasSize)
  {
  }

  /** What draw issues for in-progress vertex `idx` while the cursor is at `cursor`. */
  function InProgressStep(points: seq<Point>, idx: nat, cursor: Point, lineColor: string, canvasSize: Size): seq<Primitive>
    requires idx < |points| && AllFramed(points) && WellFramed(cursor)
  {
    var markerColor := if idx == 0 && Near(points[idx], cursor, canvasSize) then CloseMarkerColor else VertexColor;
    var line := if idx > 0 then Vector2(points[idx - 1], points[idx]) else Vector2(points[|points| - 1], cursor);
    [CircleOf(points[idx], markerColor, canvasSize), LineOf(line, lineColor, canvasSize)]
  }

  /** What draw issues for the in-progress vertices before `k`; nothing while the cursor is unknown. */
  function InProgressUpTo(points: seq<Point>, k: nat, cursorPos: Option<Point>, lineColor: string, canvasSize: Size): seq<Primitive>
    requires k <= |points| && AllFramed(points)
    requires cursorPos.Some? ==> WellFramed(cursorPos.value)
    decreases k
  {
    if k == 0 then []
    else
      InProgressUpTo(points, k - 1, cursorPos, lineColor, canvasSize)
      + (if cursorPos.Some? then InProgressStep(points, k - 1, cursorPos.value, lineColor, canvasSize) else [])
  }

  /** The background: the cleared canvas with the image stretched over it. */
  function Background(image: string, canvasSize: Size): seq<Primitive> {
    [ClearRect(canvasSize.width, canvasSize.height), DrawImage(image, canvasSize.width, canvasSize.height)]
  }

  /**
   * drawInCanvas as a value: the background, then every committed region in
   * order, then the polygon being drawn, if any.
   */
  function Scene(image: string, dataAreas: seq<DataArea>, points: seq<Point>, isDrawing: bool, cursorPos: Option<Point>,
                 canvasSize: Size, controlsColor: string, lineColor: string): (scene: seq<Primitive>)
    requires PositiveSize(canvasSize) && AllFramed(points)
    requires forall i :: 0 <= i < |dataAreas| ==> Paintable(dataAreas[i])
    requires cursorPos.Some? ==> WellFramed(cursorPos.value)
    ensures |scene| >= 2 && scene[..2] == Background(image, canvasSize)
    ensures !isDrawing || cursorPos.None? ==> scene == Background(image, canvasSize) + Concat(AreaBlocks(dataAreas, canvasSize, controlsColor))
  {
    InProgressWithoutCursor(points, |points|, lineColor, canvasSize);
    Background(image, canvasSize)
    + Concat(AreaBlocks(dataAreas, canvasSize, controlsColor))
    + (if isDrawing then InProgressUpTo(points, |points|, cursorPos, lineColor, canvasSize) else [])
  }

  // ---------------------------------------------------------------------
  // Properties of the render pass
  // ---------------------------------------------------------------------

  /** The block at position i of a sequence of two-element blocks, after one more block is appended. */
  lemma PairBlockAt<T>(prev: seq<T>, step: seq<T>, i: nat)
    requires |prev| % 2 == 0 && |step| == 2 && 2 * i < |prev| + 2
    ensures (prev + step)[2 * i..2 * i + 2] == if 2 * i < |prev| then prev[2 * i..2 * i + 2] else step
  {
  }

  /** With the cursor known, every in-progress vertex contributes two primitives. */
  lemma {:induction false} InProgressLength(points: seq<Point>, k: nat, cursor: Point, lineColor: string, f: Size)
    requires k <= |points| && AllFramed(points) && WellFramed(cursor)
    ensures |InProgressUpTo(points, k, Some(cursor), lineColor, f)| == 2 * k
    decreases k
  {
    if k > 0 {
      InProgressLength(points, k - 1, cursor, lineColor, f);
    }
  }

  /** The primitives at 2 i and 2 i + 1 are those of in-progress vertex i. */
  lemma {:induction false} InProgressEntry(points: seq<Point>, k: nat, cursor: Point, lineColor: string, f: Size, i: nat)
    requires i < k <= |points| && AllFramed(points) && WellFramed(cursor)
    ensures |InProgressUpTo(points, k, Some(cursor), lineColor, f)| == 2 * k
    ensures InProgressUpTo(points, k, Some(cursor), lineColor, f)[2 * i..2 * i + 2]
            == InProgressStep(points, i, cursor, lineColor, f)
    decreases k
  {
    InProgressLength(points, k, cursor, lineColor, f);
    InProgressLength(points, k - 1, cursor, lineColor, f);
    var prev := InProgressUpTo(points, k - 1, Some(cursor), lineColor, f);
    var step := InProgressStep(points, k - 1, cursor, lineColor, f);
    PairBlockAt(prev, step, i);
    if i < k - 1 {
      InProgressEntry(points, k - 1, cursor, lineColor, f, i);
    }
  }

  /**
   * With the cursor known, the polygon being drawn shows, for each vertex i,
   * its marker and then one line: yellow marks vertex 0 exactly when the
   * cursor is within the snap radius of it, every other marker is red; the
   * line of vertex 0 runs from the last vertex to the cursor, the line of
   * vertex i > 0 from vertex i - 1 to vertex i.
   */
  lemma InProgressLayout(points: seq<Point>, k: nat, cursor: Point, lineColor: string, f: Size, i: nat)
    requires i < k <= |points| && AllFramed(points) && WellFramed(cursor)
    ensures var r := InProgressUpTo(points, k, Some(cursor), lineColor, f);
            && |r| == 2 * k
            && r[2 * i] == CircleOf(points[i], if i == 0 && Near(points[i], cursor, f) then CloseMarkerColor else VertexColor, f)
            && r[2 * i + 1] == LineOf(if i > 0 then Vector2(points[i - 1], points[i]) else Vector2(points[|points| - 1], cursor), lineColor, f)
  {
    InProgressEntry(points, k, cursor, lineColor, f, i);
    var r := InProgressUpTo(points, k, Some(cursor), lineColor, f);
    assert r[2 * i] == r[2 * i..2 * i + 2][0];
    assert r[2 * i + 1] == r[2 * i..2 * i + 2][1];
  }

  /** Without a cursor position nothing of the polygon being drawn is shown. */
  lemma {:induction false} InProgressWithoutCursor(points: seq<Point>, k: nat, lineColor: string, f: Size)
    requires k <= |points| && AllFramed(points)
    ensures InProgressUpTo(points, k, None, lineColor, f) == []
    decreases k
  {
    if k > 0 {
      InProgressWithoutCursor(points, k - 1, lineColor, f);
    }
  }

  /** Committing one more region leaves the picture of the earlier regions as it was and paints the new one on top. */
  lemma AreasAppend(dataAreas: seq<DataArea>, dataArea: DataArea, f: Size, controlsColor: string)
    requires PositiveSize(f) && Paintable(dataArea)
    requires forall i :: 0 <= i < |dataAreas| ==> Paintable(dataAreas[i])
    ensures forall i :: 0 <= i < |dataAreas + [dataArea]| ==> Paintable((dataAreas + [dataArea])[i])
    ensures Concat(AreaBlocks(dataAreas + [dataArea], f, controlsColor))
         == Concat(AreaBlocks(dataAreas, f, controlsColor)) + AreaPrimitives(dataArea, f, controlsColor)
  {
    var all := dataAreas + [dataArea];
    assert forall i :: 0 <= i < |all| ==> all[i] == if i < |dataAreas| then dataAreas[i] else dataArea;
    var blocks := AreaBlocks(dataAreas, f, controlsColor);
    assert AreaBlocks(all, f, controlsColor) == blocks + [AreaPrimitives(dataArea, f, controlsColor)];
    ConcatSnoc(blocks, AreaPrimitives(dataArea, f, controlsColor));
  }

  /** The label of each committed region is drawn at its centroid, and only when it has a non-zero area. */
  lemma AreaLabelAtCentroid(dataArea: DataArea, f: Size, controlsColor: string)
    requires Paintable(dataArea) && PositiveSize(f)
    ensures var r := AreaPrimitives(dataArea, f, controlsColor);
            var n := |dataArea.polygon.points|;
            && |r| == 3 * n + 4
            && r[n + 3].FillText?
            && r[n + 3].text == dataArea.labelText
            && r[n + 3].font == "16px Arial" && r[n + 3].color == LabelColor
            && (r[n + 3].at.Some? <==> Centroid(dataArea.polygon.points, f).Some?)
  {
    var points := dataArea.polygon.points;
    var n := |points|;
    var fill := PolygonFill(points, dataArea.color, f);
    var caption := TextOf(dataArea.labelText, Centroid(points, f), LabelFontSize, LabelFont, LabelColor, f);
    var controls := PolygonControls(points, controlsColor, f);
    AreaPrimitivesParts(dataArea, f, controlsColor);
    PolygonFillLayout(points, dataArea.color, f);
    PolygonControlsLayout(points, controlsColor, f);
    LabelFontText();
    assert (fill + [caption] + controls)[n + 3] == caption;
  }

  /** The label font as drawText spells it. */
  lemma LabelFontText()
    ensures NatToString(LabelFontSize) + "px " + LabelFont == "16px Arial"
  {
    assert NatToString(16) == "16" by {
      assert NatToString(1) == "1";
      assert NatToString(6) == "6";
    }
  }

  /**
   * The per-region callback of drawInCanvas: the region's fill, its label at
   * the centroid in 16px white Arial, and its controls.
   */
  method PaintArea(ctx: Surface, dataArea: DataArea, canvasSize: Size, controlsColor: string)
    requires Paintable(dataArea) && PositiveSize(canvasSize)
    modifies ctx
    ensures ctx.ops == old(ctx.ops) + AreaPrimitives(dataArea, canvasSize, controlsColor)
  {
    ghost var fill := PolygonFill(dataArea.polygon.points, dataArea.color, canvasSize);
    ghost var caption := [TextOf(dataArea.labelText, Centroid(dataArea.polygon.points, canvasSize), LabelFontSize, LabelFont, LabelColor, canvasSize)];
    ghost var controls := PolygonControls(dataArea.polygon.points, controlsColor, canvasSize);
    DrawPolygon(ctx, dataArea.polygon, dataArea.color, canvasSize);
    var centroid := CalculateCentroidOfPolygon(dataArea.polygon.points, canvasSize);
    DrawText(ctx, dataArea.labelText, centroid, LabelFontSize, LabelFont, LabelColor, canvasSize);
    DrawPolygonControls(ctx, dataArea.polygon, controlsColor, canvasSize);
    assert ctx.ops == old(ctx.ops) + fill + caption + controls;
    AreaPrimitivesParts(dataArea, canvasSize, controlsColor);
    AppendAssociative(old(ctx.ops), fill, caption);
    AppendAssociative(old(ctx.ops), fill + caption, controls);
  }

  // ---------------------------------------------------------------------
  // The component
  // ---------------------------------------------------------------------

  /** Whether a press at `cursor` closes the polygon being drawn: it is within 10 of the first vertex. */
  predicate ClosesPolygon(points: seq<Point>, cursor: Point, canvasSize: Size): (closes: bool)
    requires AllFramed(points) && WellFramed(cursor)
    ensures closes <==> |points| >= 1 && Near(points[0], cursor, canvasSize)
  {
    if |points| == 0 then false
    else
      SquaredDistanceSymmetric(cursor, points[0], canvasSize);
      Near(cursor, points[0], canvasSize)
  }

  /** The region a closing press commits: the drawn vertices, a random colour and the next number as label. */
  function NewArea(points: seq<Point>, labelId: nat, channels: Rgb): (dataArea: DataArea)
    requires channels.InByteRange()
    ensures dataArea.id == None && dataArea.polygon.points == points && dataArea.labelText == NatToString(labelId)
    ensures |points| >= 1 && AllFramed(points) ==> Paintable(dataArea)
  {
    DataArea(None, Polygon(points), GenerateRandomColor(channels, NewAreaOpacity), NatToString(labelId))
  }

  /** A committed region's colour reads back as its three channels at opacity 0.5. */
  lemma NewAreaColor(points: seq<Point>, labelId: nat, channels: Rgb)
    requires channels.InByteRange()
    ensures GetColorFromString(NewArea(points, labelId, channels).color)
         == [NatToString(channels.r), " " + NatToString(channels.g), " " + NatToString(channels.b), " " + NewAreaOpacity]
  {
    RandomColorComponents(channels, NewAreaOpacity);
  }

  /** Committed regions are paintable, carry no id and are labelled with their position. */
  predicate Numbered(dataAreas: seq<DataArea>) {
    forall i :: 0 <= i < |dataAreas| ==>
      Paintable(dataAreas[i]) && dataAreas[i].labelText == NatToString(i) && dataAreas[i].id == None
  }

  /** Committing a non-empty polygon under the next number keeps the regions numbered. */
  lemma NumberedAppend(dataAreas: seq<DataArea>, points: seq<Point>, channels: Rgb)
    requires Numbered(dataAreas) && |points| >= 1 && AllFramed(points) && channels.InByteRange()
    ensures Numbered(dataAreas + [NewArea(points, |dataAreas|, channels)])
  {
    var dataArea := NewArea(points, |dataAreas|, channels);
    var all := dataAreas + [dataArea];
    forall i | 0 <= i < |all|
      ensures Paintable(all[i]) && all[i].labelText == NatToString(i) && all[i].id == None
    {
      if i < |dataAreas| {
        assert all[i] == dataAreas[i];
      } else {
        assert all[i] == dataArea;
      }
    }
  }

  /** The canvas height that keeps the image's aspect ratio: width * (height / width), truncated to whole pixels. */
  function FittedHeight(width: int, imageSize: Size): (h: int)
    requires imageSize.width > 0.0
    ensures var exact := width as real * (imageSize.height / imageSize.width);
            h as real <= exact < h as real + 1.0
  {
    (width as real * (imageSize.height / imageSize.width)).Floor
  }

  /**
   * The per-vertex callback of draw: vertex `idx`'s marker, yellow when it
   * is the first vertex and the cursor is within 10 of it, then the edge
   * from the previous vertex, or from the last vertex to the cursor.
   */
  method DrawVertex(ctx: Surface, points: seq<Point>, idx: nat, cursor: Point, lineColor: string, canvasSize: Size)
    requires idx < |points| && AllFramed(points) && WellFramed(cursor)
    modifies ctx
    ensures ctx.ops == old(ctx.ops) + InProgressStep(points, idx, cursor, lineColor, canvasSize)
  {
    if idx == 0 && SquaredDistance(points[idx], cursor, canvasSize) <= SnapRadius * SnapRadius {
      DrawCircle(ctx, points[idx], CloseMarkerColor, canvasSize);
    } else {
      DrawCircle(ctx, points[idx], VertexColor, canvasSize);
    }
    if idx > 0 && idx < |points| {
      DrawLine(ctx, Vector2(points[idx - 1], points[idx]), lineColor, canvasSize);
    } else {
      DrawLine(ctx, Vector2(points[|points| - 1], cursor), lineColor, canvasSize);
    }
  }

  class Canvas {
    /** The canvas element's size in pixels. */
    var width: int
    var height: int
    /** Counter for the automatic labels. */
    var labelId: nat
    var cursorPos: Option<Point>
    var imageData: Option<ImageData>
    /** The background image element, by the URL it was loaded from. */
    var image: Option<string>
    var clicked: bool
    var isDrawing: bool
    /** The vertices of the polygon being drawn. */
    var points: seq<Point>
    var dataAreas: seq<DataArea>

    function CanvasSize(): Size
      reads this
    {
      Size(width as real, height as real)
    }

    /**
     * The canvas has a size, every stored point a frame, every committed
     * region a vertex; the regions are numbered 0, 1, ... by their labels,
     * have no id, and the counter is their number.
     */
    ghost predicate Valid()
      reads this
    {
      && width > 0 && height > 0
      && AllFramed(points)
      && Numbered(dataAreas)
      && labelId == |dataAreas|
      && (cursorPos.Some? ==> WellFramed(cursorPos.value))
    }

    /** A freshly mounted canvas of the given size: nothing loaded, drawn or pressed. */
    constructor (width: int, height: int)
      requires width > 0 && height > 0
      ensures Valid()
      ensures this.width == width && this.height == height
      ensures labelId == 0 && cursorPos == None && imageData == None && image == None
      ensures !clicked && !isDrawing && points == [] && dataAreas == []
    {
      this.width, this.height := width, height;
      labelId, cursorPos, imageData, image := 0, None, None, None;
      clicked, isDrawing, points, dataAreas := false, false, [], [];
    }

    /** The picture drawInCanvas paints for the current state. */
    function CurrentScene(controlsColor: string, lineColor: string): seq<Primitive>
      reads this
      requires Valid() && image.Some?
    {
      Scene(image.value, dataAreas, points, isDrawing, cursorPos, CanvasSize(), controlsColor, lineColor)
    }

    /** Labels of committed regions are pairwise different. */
    lemma LabelsDistinct()
      requires Valid()
      ensures forall i, j :: 0 <= i < j < |dataAreas| ==> dataAreas[i].labelText != dataAreas[j].labelText
    {
      forall i, j | 0 <= i < j < |dataAreas| ensures dataAreas[i].labelText != dataAreas[j].labelText {
        if dataAreas[i].labelText == dataAreas[j].labelText {
          NatToStringInjective(i, j);
        }
      }
    }

    /**
     * handleMouseDown. The first press of a drag takes effect: a press
     * within 10 of the first vertex commits the drawn polygon as a region,
     * any other press appends the cursor as a vertex. Presses while the
     * button is held only enter drawing mode.
     */
    method HandleMouseDown(mouseX: real, mouseY: real, channels: Rgb)
      requires Valid() && channels.InByteRange()
      modifies this
      ensures Valid()
      ensures var cursor := Point(mouseX, mouseY, CanvasSize());
              var closes := !old(clicked) && ClosesPolygon(old(points), cursor, CanvasSize());
              && clicked
              && isDrawing == !closes
              && (closes ==>
                    && dataAreas == old(dataAreas) + [NewArea(old(points), old(labelId), channels)]
                    && labelId == old(labelId) + 1
                    && points == [])
              && (!old(clicked) && !closes ==>
                    dataAreas == old(dataAreas) && labelId == old(labelId) && points == old(points) + [cursor])
              && (old(clicked) ==>
                    dataAreas == old(dataAreas) && labelId == old(labelId) && points == old(points))
      ensures width == old(width) && height == old(height)
      ensures cursorPos == old(cursorPos) && imageData == old(imageData) && image == old(image)
    {
      var cursor := Point(mouseX, mouseY, Size(width as real, height as real));
      var wasDrawing, wasClicked, drawn, areas, counter := isDrawing, clicked, points, dataAreas, labelId;

      if !wasDrawing {
        isDrawing := true;
      }

      if !wasClicked {
        clicked := true;
        var closes := ClosesPolygon(drawn, cursor, Size(width as real, height as real));
        if closes {
          CommitPolygon(channels);
        } else {
          points := drawn + [cursor];
        }
      }
    }

    /**
     * The closing branch of handleMouseDown: the drawn vertices become a
     * region labelled with the counter, and drawing stops.
     */
    method CommitPolygon(channels: Rgb)
      requires Valid() && channels.InByteRange() && |points| >= 1
      modifies this
      ensures Valid()
      ensures dataAreas == old(dataAreas) + [NewArea(old(points), old(labelId), channels)]
      ensures labelId == old(labelId) + 1 && points == [] && !isDrawing
      ensures width == old(width) && height == old(height) && clicked == old(clicked)
      ensures cursorPos == old(cursorPos) && imageData == old(imageData) && image == old(image)
    {
      var dataArea := NewArea(points, labelId, channels);
      NumberedAppend(dataAreas, points, channels);
      isDrawing := false;
      dataAreas := dataAreas + [dataArea];
      labelId := labelId + 1;
      points := [];
    }

    /** handleMouseUp: the button is released. */
    method HandleMouseUp()
      requires Valid()
      modifies this
      ensures Valid()
      ensures !clicked
      ensures width == old(width) && height == old(height) && labelId == old(labelId)
      ensures cursorPos == old(cursorPos) && imageData == old(imageData) && image == old(image)
      ensures isDrawing == old(isDrawing) && points == old(points) && dataAreas == old(dataAreas)
    {
      clicked := false;
    }

    /**
     * drawInCanvas, with the colours the controls and the in-progress lines
     * are drawn in passed in.
     */
    method DrawInCanvas(ctx: Surface, controlsColor: string, lineColor: string)
      requires Valid() && image.Some?
      modifies ctx
      ensures ctx.ops == old(ctx.ops) + CurrentScene(controlsColor, lineColor)
    {
      var canvasSize := Size(width as real, height as real);
      var areas := dataAreas;
      assert forall i :: 0 <= i < |areas| ==> Paintable(areas[i]);
      ctx.ops := ctx.ops + [ClearRect(width as real, height as real), DrawImage(image.value, width as real, height as real)];
      ghost var background := ctx.ops;
      ghost var blocks := AreaBlocks(areas, canvasSize, controlsColor);
      for i := 0 to |areas|
        invariant ctx.ops == background + Concat(blocks[..i])
      {
        PaintArea(ctx, areas[i], canvasSize, controlsColor);
        ConcatPrefixStep(blocks, i);
        AppendAssociative(background, Concat(blocks[..i]), blocks[i]);
      }
      ConcatWhole(blocks);
      ghost var painted := Concat(blocks);
      ghost var drawing := if isDrawing then InProgressUpTo(points, |points|, cursorPos, lineColor, canvasSize) else [];
      if isDrawing {
        Draw(ctx, points, lineColor);
      }
      assert ctx.ops == old(ctx.ops) + Background(image.value, canvasSize) + painted + drawing;
      AppendAssociative(old(ctx.ops), Background(image.value, canvasSize) + painted, drawing);
      AppendAssociative(old(ctx.ops), Background(image.value, canvasSize), painted);
    }

    /** draw: the polygon being drawn, relative to the cursor. */
    method Draw(ctx: Surface, points: seq<Point>, lineColor: string)
      requires Valid() && AllFramed(points)
      modifies ctx
      ensures ctx.ops == old(ctx.ops) + InProgressUpTo(points, |points|, cursorPos, lineColor, CanvasSize())
    {
      var canvasSize := Size(width as real, height as real);
      for idx := 0 to |points|
        invariant ctx.ops == old(ctx.ops) + InProgressUpTo(points, idx, cursorPos, lineColor, canvasSize)
      {
        if cursorPos.Some? {
          DrawVertex(ctx, points, idx, cursorPos.value, lineColor, canvasSize);
        }
      }
    }

    /**
     * handleMouseMove: with an image loaded, the canvas is repainted and
     * the cursor moves to the mouse. The repaint runs in the handler's
     * closure, so it still shows the cursor where it was before.
     */
    method HandleMouseMove(ctx: Surface, mouseX: real, mouseY: real, controlsColor: string, lineColor: string)
      requires Valid()
      modifies this, ctx
      ensures Valid()
      ensures old(image).Some? ==> cursorPos == Some(Point(mouseX, mouseY, CanvasSize()))
      ensures old(image).None? ==> cursorPos == old(cursorPos)
      ensures old(image).Some? ==> ctx.ops == old(ctx.ops) + old(CurrentScene(controlsColor, lineColor))
      ensures old(image).None? ==> ctx.ops == old(ctx.ops)
      ensures width == old(width) && height == old(height) && labelId == old(labelId) && clicked == old(clicked)
      ensures imageData == old(imageData) && image == old(image)
      ensures isDrawing == old(isDrawing) && points == old(points) && dataAreas == old(dataAreas)
    {
      if image.Some? {
        var cursor := Point(mouseX, mouseY, Size(width as real, height as real));
        DrawInCanvas(ctx, controlsColor, lineColor);
        cursorPos := Some(cursor);
      }
    }

    /**
     * handleCanvasUpdate: with an image and its data loaded, the height is
     * fitted to the image's aspect ratio and the canvas repainted. Stored
     * points and regions are left as they are: they keep the frame they
     * were captured in.
     */
    method HandleCanvasUpdate(ctx: Surface, controlsColor: string, lineColor: string)
      requires Valid()
      requires imageData.Some? ==> imageData.value.size.width > 0.0
      requires image.Some? && imageData.Some? ==> FittedHeight(width, imageData.value.size) >= 1
      modifies this, ctx
      ensures Valid()
      ensures width == old(width) && labelId == old(labelId) && clicked == old(clicked) && cursorPos == old(cursorPos)
      ensures imageData == old(imageData) && image == old(image)
      ensures isDrawing == old(isDrawing) && points == old(points) && dataAreas == old(dataAreas)
      ensures image.Some? && imageData.Some? ==>
                && height == FittedHeight(width, imageData.value.size)
                && ctx.ops == old(ctx.ops) + CurrentScene(controlsColor, lineColor)
      ensures image.None? || imageData.None? ==> height == old(height) && ctx.ops == old(ctx.ops)
    {
      if image.Some? && imageData.Some? {
        var aspectRatio := imageData.value.size.height / imageData.value.size.width;
        var canvasHeight := width as real * aspectRatio;
        assert canvasHeight.Floor == FittedHeight(width, imageData.value.size);
        height := canvasHeight.Floor;
        DrawInCanvas(ctx, controlsColor, lineColor);
      }
    }

    /**
     * The effects that follow a new `imageData` prop: the data is stored,
     * the canvas takes its parent's width when it has a parent, and an
     * image element is created for the data's URL.
     */
    method ReceiveImageData(data: Option<ImageData>, parentWidth: Option<int>)
      requires Valid()
      requires parentWidth.Some? ==> parentWidth.value > 0
      modifies this
      ensures Valid()
      ensures imageData == data
      ensures data.Some? ==> image == Some(data.value.urlResource)
      ensures data.None? ==> image == old(image)
      ensures width == (if parentWidth.Some? then parentWidth.value else old(width))
      ensures height == old(height) && labelId == old(labelId) && clicked == old(clicked) && cursorPos == old(cursorPos)
      ensures isDrawing == old(isDrawing) && points == old(points) && dataAreas == old(dataAreas)
    {
      imageData := data;
      if parentWidth.Some? {
        width := parentWidth.value;
      }
      if data.Some? {
        image := Some(data.value.urlResource);
      }
    }
  }
}
