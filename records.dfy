/**
 * The record types the engine exchanges (src/interfaces/): regions
 * ("data areas"), loaded image descriptions, LabelMe documents and the
 * reserved-keyword table.
 */
module Records {
  import opened Wrappers
  import opened Geometry

  /** A polygon: its vertices in drawing order. */
  datatype Polygon = Polygon(points: seq<Point>)

  /**
   * A labelled, coloured region (`labelText` is the interface's `label`). The interface requires an `id`, but the
   * canvas builds its regions without one, so the id is optional here.
   */
  datatype DataArea = DataArea(id: Option<string>, polygon: Polygon, color: string, labelText: string)

  /** The region's vertices can all be mapped into another frame. */
  predicate FramedArea(area: DataArea) {
    AllFramed(area.polygon.points)
  }

  /** A loaded image: file name, natural size and object URL. */
  datatype ImageData = ImageData(name: string, size: Size, urlResource: string)

  /** LabelMe's `flags` object; both the document and its shapes always carry an empty one. */
  datatype Flag = Flag

  /** One LabelMe shape; `points` is a list of `[x, y]` pairs. */
  datatype Shape = Shape(labelText: string, points: seq<seq<real>>, groupId: Option<string>, shapeType: string, flags: Flag)

  /** A LabelMe annotation document. */
  datatype Labelme = Labelme(version: string, flags: Flag, shapes: seq<Shape>, imageHeight: real, imageWidth: real)

  /** What a reserved label imposes on a region. */
  datatype ReservedKeywordConfiguration = ReservedKeywordConfiguration(polygonColor: string, description: string)

  /** The reserved-keyword table, keyed by label. */
  type ReservedKeyword = map<string, ReservedKeywordConfiguration>
}
