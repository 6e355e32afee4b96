/**
 * Conversion between the engine's regions and LabelMe shapes
 * (src/utils/loader.tsx).
 *
 * A LabelMe shape stores its vertices as `[x, y]` pairs in the pixel frame
 * of the image; a region stores `Point`s tagged with the frame they were
 * measured in. Export maps each vertex into the image frame, import maps
 * each pair from the document's image frame into the canvas frame.
 */
module Interchange {
  import opened Wrappers
  import opened Geometry
  import opened Records
  import opened Draw

  /** The opacity text of imported regions' colours (`${0.5}`). */
  const ImportedOpacity: string := "0.5"

  // ---------------------------------------------------------------------
  // Export: region to shape
  // ---------------------------------------------------------------------

  /** One vertex as an `[x, y]` pair in the image frame. */
  function ExportPoint(point: Point, imageSize: Size): (pair: seq<real>)
    requires WellFramed(point)
    ensures |pair| == 2
  {
    var p := RelativePoint(point, imageSize);
    [p.x, p.y]
  }

  /** The vertices of a region as pairs in the image frame, in order. */
  function ExportPoints(points: seq<Point>, imageSize: Size): (pairs: seq<seq<real>>)
    requires AllFramed(points)
    ensures |pairs| == |points|
    ensures forall i :: 0 <= i < |pairs| ==> |pairs[i]| == 2
  {
    seq(|points|, i requires 0 <= i < |points| => ExportPoint(points[i], imageSize))
  }

  /** The frame export maps into: the image size, or 1280 x 720 when there is none. */
  function ExportFrame(imageSize: Option<Size>): (frame: Size)
    ensures imageSize.Some? ==> frame == imageSize.value
    ensures imageSize.None? ==> frame == Size(1280.0, 720.0)
  {
    imageSize.GetOr(Size(1280.0, 720.0))
  }

  /**
   * mapDataAreaToShape, given the loaded image's size (`imageData.size`):
   * the region's label and its vertices in the image frame; a shape is
   * always an ungrouped polygon with no flags.
   */
  function MapDataAreaToShape(dataArea: DataArea, imageSize: Option<Size>): (shape: Shape)
    requires FramedArea(dataArea)
    ensures shape.labelText == dataArea.labelText
    ensures shape.points == ExportPoints(dataArea.polygon.points, ExportFrame(imageSize))
    ensures shape.groupId == None && shape.shapeType == "polygon" && shape.flags == Flag
  {
    Shape(dataArea.labelText, ExportPoints(dataArea.polygon.points, ExportFrame(imageSize)), None, "polygon", Flag)
  }

  // ---------------------------------------------------------------------
  // Import: shape to region
  // ---------------------------------------------------------------------

  /** Every pair of every shape has both coordinates, and the image has an area. */
  predicate WellFormedDocument(labelme: Labelme) {
    && labelme.imageWidth > 0.0
    && labelme.imageHeight > 0.0
    && forall i :: 0 <= i < |labelme.shapes| ==> PairsComplete(labelme.shapes[i].points)
  }

  predicate PairsComplete(pairs: seq<seq<real>>) {
    forall j :: 0 <= j < |pairs| ==> |pairs[j]| >= 2
  }

  /** The document's image frame. */
  function DocumentFrame(labelme: Labelme): Size {
    Size(labelme.imageWidth, labelme.imageHeight)
  }

  /** One `[x, y]` pair, read in the frame `frame` and mapped onto the canvas. */
  function ImportPoint(pair: seq<real>, frame: Size, canvasSize: Size): (point: Point)
    requires |pair| >= 2 && PositiveSize(frame)
    ensures point.scale == canvasSize
  {
    RelativePoint(Point(pair[0], pair[1], frame), canvasSize)
  }

  /** The pairs of a shape as canvas points, in order. */
  function ImportPoints(pairs: seq<seq<real>>, frame: Size, canvasSize: Size): (points: seq<Point>)
    requires PairsComplete(pairs) && PositiveSize(frame)
    ensures |points| == |pairs|
    ensures forall i :: 0 <= i < |points| ==> points[i].scale == canvasSize
  {
    seq(|pairs|, i requires 0 <= i < |pairs| => ImportPoint(pairs[i], frame, canvasSize))
  }

  /**
   * mapLabelmeToDatashare. The fresh uuid of each region and the random
   * channels of its colour are passed in, one per shape.
   */
  function MapLabelmeToDatashare(labelme: Labelme, canvasSize: Size, ids: seq<string>, channels: seq<Rgb>): (dataAreas: seq<DataArea>)
    requires WellFormedDocument(labelme)
    requires |ids| == |labelme.shapes| && |channels| == |labelme.shapes|
    requires forall i :: 0 <= i < |channels| ==> channels[i].InByteRange()
    ensures |dataAreas| == |labelme.shapes|
    ensures forall i :: 0 <= i < |dataAreas| ==>
              && dataAreas[i].id == Some(ids[i])
              && dataAreas[i].labelText == labelme.shapes[i].labelText
              && dataAreas[i].color == GenerateRandomColor(channels[i], ImportedOpacity)
              && |dataAreas[i].polygon.points| == |labelme.shapes[i].points|
    ensures PositiveSize(canvasSize) ==> forall i :: 0 <= i < |dataAreas| ==> FramedArea(dataAreas[i])
  {
    seq(|labelme.shapes|, i requires 0 <= i < |labelme.shapes| =>
      DataArea(Some(ids[i]),
               Polygon(ImportPoints(labelme.shapes[i].points, DocumentFrame(labelme), canvasSize)),
               GenerateRandomColor(channels[i], ImportedOpacity),
               labelme.shapes[i].labelText))
  }

  // ---------------------------------------------------------------------
  // Round trip
  // ---------------------------------------------------------------------

  /**
   * Exporting vertices into an image frame and importing them back onto a
   * canvas places each vertex where mapping it straight onto that canvas
   * would.
   */
  lemma ExportImportPoints(points: seq<Point>, imageSize: Size, canvasSize: Size)
    requires AllFramed(points) && PositiveSize(imageSize)
    ensures PairsComplete(ExportPoints(points, imageSize))
    ensures ImportPoints(ExportPoints(points, imageSize), imageSize, canvasSize) == RelativePoints(points, canvasSize)
  {
    var pairs := ExportPoints(points, imageSize);
    var back := ImportPoints(pairs, imageSize, canvasSize);
    forall i | 0 <= i < |points| ensures back[i] == RelativePoint(points[i], canvasSize) {
      var q := RelativePoint(points[i], imageSize);
      assert pairs[i] == [q.x, q.y];
      assert Point(q.x, q.y, imageSize) == q;
      RelativePointCompose(points[i], imageSize, canvasSize);
    }
  }

  /** Vertices measured on the canvas they are imported onto come back unchanged. */
  lemma ExportImportPointsSameCanvas(points: seq<Point>, imageSize: Size, canvasSize: Size)
    requires AllFramed(points) && PositiveSize(imageSize)
    requires forall i :: 0 <= i < |points| ==> points[i].scale == canvasSize
    ensures PairsComplete(ExportPoints(points, imageSize))
    ensures ImportPoints(ExportPoints(points, imageSize), imageSize, canvasSize) == points
  {
    ExportImportPoints(points, imageSize, canvasSize);
    forall i | 0 <= i < |points| ensures RelativePoint(points[i], canvasSize) == points[i] {
      RelativePointOwnFrame(points[i]);
    }
  }
}
