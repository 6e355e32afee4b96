/**
 * Drawing and colour helpers (src/utils/draw.tsx).
 *
 * The browser's 2D context is abstracted as a `Surface` that records the
 * primitives drawn on it, in order; every coordinate it receives has been
 * mapped into the canvas frame by RelativePoint. Colours are CSS strings of
 * the form `rgba(r, g, b, a)`.
 */
module Draw {
  import opened Wrappers
  import opened Geometry
  import opened Records
  import opened JsText

  // ---------------------------------------------------------------------
  // Colour strings
  // ---------------------------------------------------------------------

  /** `rgba[i]` inside a template literal: a missing element prints as "undefined". */
  function ComponentAt(rgba: seq<string>, i: nat): string {
    if i < |rgba| then rgba[i] else "undefined"
  }

  /** The template `rgba(${c0}, ${c1}, ${c2}, ${c3})`. */
  function RgbaText(c0: string, c1: string, c2: string, c3: string): (text: string)
    ensures |text| == 12 + |c0| + |c1| + |c2| + |c3|
    ensures |text| >= 12 && text[..5] == "rgba(" && text[|text| - 1] == ')'
  {
    var inner := c0 + ", " + c1 + ", " + c2 + ", " + c3;
    assert "rgba(" + c0 + ", " + c1 + ", " + c2 + ", " + c3 + ")" == "rgba(" + inner + ")";
    assert ("rgba(" + inner + ")")[..5] == "rgba(";
    "rgba(" + inner + ")"
  }

  /** The template's text ends with its fourth component and the closing parenthesis. */
  lemma RgbaTextEndsWith(c0: string, c1: string, c2: string, c3: string)
    ensures var text := RgbaText(c0, c1, c2, c3);
            text[|text| - |c3| - 1..] == c3 + ")"
  {
    var head := "rgba(" + c0 + ", " + c1 + ", " + c2 + ", ";
    assert RgbaText(c0, c1, c2, c3) == head + (c3 + ")");
  }

  /** Three colour channels, as produced by `Math.round(Math.random() * 255)`. */
  datatype Rgb = Rgb(r: nat, g: nat, b: nat) {
    predicate InByteRange() {
      r <= 255 && g <= 255 && b <= 255
    }
  }

  /**
   * generateRandomColor with the three random channels passed in. `opacity`
   * is the decimal text of the opacity number.
   */
  function GenerateRandomColor(channels: Rgb, opacity: string): (color: string)
    requires channels.InByteRange()
    ensures |color| >= 12 && color[..5] == "rgba(" && color[|color| - 1] == ')'
  {
    RgbaText(NatToString(channels.r), NatToString(channels.g), NatToString(channels.b), opacity)
  }

  /** A generated colour is the colour built from the channels' decimal text and the opacity. */
  lemma GeneratedColorIsBuilt(channels: Rgb, opacity: string)
    requires channels.InByteRange()
    ensures GenerateRandomColor(channels, opacity)
         == BuildColorFromColorComponents([NatToString(channels.r), NatToString(channels.g), NatToString(channels.b), opacity])
  {
  }

  /** getColorFromString: drop the first "rgba(" and the first ")", then split on commas. */
  function GetColorFromString(color: string): (components: seq<string>)
    ensures |components| >= 1
    ensures forall i :: 0 <= i < |components| ==> ',' !in components[i]
  {
    Split(ReplaceFirst(ReplaceFirst(color, "rgba(", ""), ")", ""), ',')
  }

  /** buildColorFromColorComponents. */
  function BuildColorFromColorComponents(rgba: seq<string>): (color: string)
    ensures |color| >= 12 && color[..5] == "rgba(" && color[|color| - 1] == ')'
    ensures |rgba| < 4 ==> |color| == 12 + |ComponentAt(rgba, 0)| + |ComponentAt(rgba, 1)| + |ComponentAt(rgba, 2)| + |"undefined"|
  {
    RgbaText(ComponentAt(rgba, 0), ComponentAt(rgba, 1), ComponentAt(rgba, 2), ComponentAt(rgba, 3))
  }

  /**
   * A built colour ends with its fourth component and ")"; with fewer than
   * four components that is the text "undefined)".
   */
  lemma BuildColorEndsWithOpacity(rgba: seq<string>)
    ensures var color := BuildColorFromColorComponents(rgba);
            && |color| == 12 + |ComponentAt(rgba, 0)| + |ComponentAt(rgba, 1)| + |ComponentAt(rgba, 2)| + |ComponentAt(rgba, 3)|
            && (|rgba| >= 4 ==> color[|color| - |rgba[3]| - 1..] == rgba[3] + ")")
            && (|rgba| < 4 ==> color[|color| - 10..] == "undefined)")
  {
    RgbaTextEndsWith(ComponentAt(rgba, 0), ComponentAt(rgba, 1), ComponentAt(rgba, 2), ComponentAt(rgba, 3));
  }

  /** changeOpcaityFromColor: the first three components of `rgba` with a new opacity. */
  function ChangeOpacityFromColor(rgba: string, opacity: string): (color: string)
    ensures var cs := GetColorFromString(rgba);
            color == BuildColorFromColorComponents([ComponentAt(cs, 0), ComponentAt(cs, 1), ComponentAt(cs, 2), opacity])
  {
    var components := GetColorFromString(rgba);
    RgbaText(ComponentAt(components, 0), ComponentAt(components, 1), ComponentAt(components, 2), opacity)
  }

  /** A colour component that survives being parsed back: no comma and no closing parenthesis. */
  predicate PlainComponent(s: string) {
    ',' !in s && ')' !in s
  }

  lemma DigitsArePlain(s: string)
    requires IsDigits(s)
    ensures PlainComponent(s)
  {
    forall i | 0 <= i < |s| ensures s[i] != ',' && s[i] != ')' {
      assert '0' <= s[i] <= '9';
    }
  }

  /** Removing the "rgba(" prefix and the closing parenthesis gives back what was inside. */
  lemma StripRgbaWrapper(inner: string)
    requires ')' !in inner
    ensures ReplaceFirst(ReplaceFirst("rgba(" + inner + ")", "rgba(", ""), ")", "") == inner
  {
    assert "rgba(" + inner + ")" == "rgba(" + (inner + ")");
    ReplaceFirstAtStart("rgba(", inner + ")", "");
    assert "" + (inner + ")") == inner + [')'] + "";
    ReplaceFirstChar(inner, ')', "");
    assert inner + "" == inner;
  }

  lemma AppendAssociative<T>(x: seq<T>, y: seq<T>, z: seq<T>)
    ensures x + (y + z) == x + y + z
  {
  }

  /** The part before the first ", " comes off first; the next part keeps the space. */
  lemma SplitAfterComma(x: string, rest: string)
    requires ',' !in x
    ensures Split(x + ", " + rest, ',') == [x] + Split(" " + rest, ',')
  {
    assert x + ", " + rest == x + [','] + (" " + rest);
    SplitAtFirst(x, ',', " " + rest);
  }

  /** A component after the first keeps the space that follows its comma. */
  lemma SplitLeadingSpace(x: string, rest: string)
    requires ',' !in x
    ensures Split(" " + (x + ", " + rest), ',') == [" " + x] + Split(" " + rest, ',')
  {
    AppendAssociative(" ", x + ", ", rest);
    AppendAssociative(" ", x, ", ");
    SplitAfterComma(" " + x, rest);
  }

  /** Regrouping the joined components to the right. */
  lemma JoinRegroup(a: string, b: string, c: string, d: string)
    ensures a + ", " + b + ", " + c + ", " + d == a + ", " + (b + ", " + (c + ", " + d))
  {
    AppendAssociative(a + ", " + b, ", ", c);
    AppendAssociative(a + ", " + b, ", " + c, ", ");
    AppendAssociative(a + ", " + b, ", " + c + ", ", d);
    AppendAssociative(a + ", ", b, ", " + (c + ", " + d));
    AppendAssociative(a, ", ", b + ", " + (c + ", " + d));
  }

  lemma SplitFourNested(a: string, b: string, c: string, d: string)
    requires ',' !in a && ',' !in b && ',' !in c && ',' !in d
    ensures Split(a + ", " + (b + ", " + (c + ", " + d)), ',') == [a] + ([" " + b] + ([" " + c] + [" " + d]))
  {
    SplitWithoutSeparator(" " + d, ',');
    SplitLeadingSpace(c, d);
    SplitLeadingSpace(b, c + ", " + d);
    SplitAfterComma(a, b + ", " + (c + ", " + d));
  }

  lemma SplitFourJoined(a: string, b: string, c: string, d: string)
    requires ',' !in a && ',' !in b && ',' !in c && ',' !in d
    ensures Split(a + ", " + b + ", " + c + ", " + d, ',') == [a] + ([" " + b] + ([" " + c] + [" " + d]))
  {
    SplitFourNested(a, b, c, d);
    JoinRegroup(a, b, c, d);
    var joined := a + ", " + b + ", " + c + ", " + d;
    assert joined == a + ", " + (b + ", " + (c + ", " + d));
  }

  lemma FourParts(a: string, b: string, c: string, d: string)
    ensures [a] + ([" " + b] + ([" " + c] + [" " + d])) == [a, " " + b, " " + c, " " + d]
  {
  }

  /** Four comma-free components joined by ", " split back into four parts. */
  lemma SplitFourComponents(a: string, b: string, c: string, d: string)
    requires ',' !in a && ',' !in b && ',' !in c && ',' !in d
    ensures Split(a + ", " + b + ", " + c + ", " + d, ',') == [a, " " + b, " " + c, " " + d]
  {
    SplitFourJoined(a, b, c, d);
    FourParts(a, b, c, d);
  }

  /**
   * Parsing a built colour gives back its components; every one after the
   * first keeps the space that follows the comma.
   */
  lemma ColorComponentsRoundTrip(a: string, b: string, c: string, d: string)
    requires PlainComponent(a) && PlainComponent(b) && PlainComponent(c) && PlainComponent(d)
    ensures GetColorFromString(BuildColorFromColorComponents([a, b, c, d])) == [a, " " + b, " " + c, " " + d]
  {
    var inner := a + ", " + b + ", " + c + ", " + d;
    assert BuildColorFromColorComponents([a, b, c, d]) == "rgba(" + inner + ")";
    assert ')' !in inner;
    StripRgbaWrapper(inner);
    SplitFourComponents(a, b, c, d);
  }

  /**
   * Changing the opacity keeps the first three parsed components and puts
   * the new opacity fourth (each of the last three preceded by a space).
   */
  lemma ChangeOpacityComponents(color: string, opacity: string)
    requires var cs := GetColorFromString(color);
             ')' !in ComponentAt(cs, 0) && ')' !in ComponentAt(cs, 1) && ')' !in ComponentAt(cs, 2)
    requires PlainComponent(opacity)
    ensures var cs := GetColorFromString(color);
            GetColorFromString(ChangeOpacityFromColor(color, opacity))
            == [ComponentAt(cs, 0), " " + ComponentAt(cs, 1), " " + ComponentAt(cs, 2), " " + opacity]
  {
    var cs := GetColorFromString(color);
    ColorComponentsRoundTrip(ComponentAt(cs, 0), ComponentAt(cs, 1), ComponentAt(cs, 2), opacity);
  }

  /** A generated colour parses into its three channels and the opacity. */
  lemma RandomColorComponents(channels: Rgb, opacity: string)
    requires channels.InByteRange() && PlainComponent(opacity)
    ensures GetColorFromString(GenerateRandomColor(channels, opacity))
         == [NatToString(channels.r), " " + NatToString(channels.g), " " + NatToString(channels.b), " " + opacity]
  {
    DigitsArePlain(NatToString(channels.r));
    DigitsArePlain(NatToString(channels.g));
    DigitsArePlain(NatToString(channels.b));
    ColorComponentsRoundTrip(NatToString(channels.r), NatToString(channels.g), NatToString(channels.b), opacity);
  }

  // ---------------------------------------------------------------------
  // Draw primitives
  // ---------------------------------------------------------------------

  /** A position in canvas pixels. */
  datatype Coord = Coord(x: real, y: real)

  /** What the drawing functions ask of the 2D context, one record per effect. */
  datatype Primitive =
    | ClearRect(width: real, height: real)
    | DrawImage(resource: string, width: real, height: real)
    /** beginPath, arc, fill and stroke of a filled circle. */
    | Circle(center: Coord, radius: real, color: string)
    /** beginPath, moveTo, lineTo and stroke of one segment. */
    | Line(start: Coord, finish: Coord, color: string)
    | BeginPath
    | MoveTo(target: Coord)
    | LineTo(target: Coord)
    | ClosePath
    | Fill(color: string)
    /** fillText; `at` is None where the position is not a finite number. */
    | FillText(text: string, at: Option<Coord>, font: string, color: string)

  /** The drawing surface: the primitives issued so far. */
  class Surface {
    var ops: seq<Primitive>

    constructor ()
      ensures ops == []
    {
      ops := [];
    }
  }

  /** A segment between two points (Vector2). */
  datatype Vector2 = Vector2(start: Point, finish: Point)

  /** Where a point lands on a canvas of size `canvasSize`. */
  function Pixel(point: Point, canvasSize: Size): Coord
    requires WellFramed(point)
  {
    var scaled := RelativePoint(point, canvasSize);
    Coord(scaled.x, scaled.y)
  }

  /** Every vertex marker has radius 5. */
  const CircleRadius: real := 5.0

  function CircleOf(point: Point, color: string, canvasSize: Size): Primitive
    requires WellFramed(point)
  {
    Circle(Pixel(point, canvasSize), CircleRadius, color)
  }

  function LineOf(line: Vector2, color: string, canvasSize: Size): Primitive
    requires WellFramed(line.start) && WellFramed(line.finish)
  {
    Line(Pixel(line.start, canvasSize), Pixel(line.finish, canvasSize), color)
  }

  /** drawCircle. */
  method DrawCircle(ctx: Surface, point: Point, color: string, canvasSize: Size)
    requires WellFramed(point)
    modifies ctx
    ensures ctx.ops == old(ctx.ops) + [CircleOf(point, color, canvasSize)]
  {
    var scaledPoint := RelativePoint(point, canvasSize);
    ctx.ops := ctx.ops + [Circle(Coord(scaledPoint.x, scaledPoint.y), 5.0, color)];
  }

  /** drawLine. */
  method DrawLine(ctx: Surface, line: Vector2, color: string, canvasSize: Size)
    requires WellFramed(line.start) && WellFramed(line.finish)
    modifies ctx
    ensures ctx.ops == old(ctx.ops) + [LineOf(line, color, canvasSize)]
  {
    var scaledStartPoint := RelativePoint(line.start, canvasSize);
    var scaledEndPoint := RelativePoint(line.finish, canvasSize);
    ctx.ops := ctx.ops + [Line(Coord(scaledStartPoint.x, scaledStartPoint.y), Coord(scaledEndPoint.x, scaledEndPoint.y), color)];
  }

  /** One lineTo per point, in order. */
  function LineTos(points: seq<Point>, canvasSize: Size): (r: seq<Primitive>)
    requires AllFramed(points)
    ensures |r| == |points|
    ensures forall i :: 0 <= i < |r| ==> r[i] == LineTo(Pixel(points[i], canvasSize))
    decreases |points|
  {
    if |points| == 0 then []
    else LineTos(points[..|points| - 1], canvasSize) + [LineTo(Pixel(points[|points| - 1], canvasSize))]
  }

  /** What drawPolygon issues: a closed path through the vertices, then a fill. */
  function PolygonFill(points: seq<Point>, color: string, canvasSize: Size): seq<Primitive>
    requires |points| >= 1 && AllFramed(points)
  {
    [BeginPath, MoveTo(Pixel(points[0], canvasSize))] + LineTos(points[1..], canvasSize) + [ClosePath, Fill(color)]
  }

  /** The fill's path visits every vertex once, in order, and is then closed and filled. */
  lemma PolygonFillLayout(points: seq<Point>, color: string, canvasSize: Size)
    requires |points| >= 1 && AllFramed(points)
    ensures var r := PolygonFill(points, color, canvasSize);
            && |r| == |points| + 3
            && r[0] == BeginPath
            && r[1] == MoveTo(Pixel(points[0], canvasSize))
            && (forall i :: 1 <= i < |points| ==> r[i + 1] == LineTo(Pixel(points[i], canvasSize)))
            && r[|points| + 1] == ClosePath
            && r[|points| + 2] == Fill(color)
  {
    var r := PolygonFill(points, color, canvasSize);
    var lines := LineTos(points[1..], canvasSize);
    forall i | 1 <= i < |points| ensures r[i + 1] == LineTo(Pixel(points[i], canvasSize)) {
      assert r[i + 1] == lines[i - 1];
    }
  }

  /** drawPolygon: the polygon's interior, filled with `color`; the polygon must have a vertex. */
  method DrawPolygon(ctx: Surface, polygon: Polygon, color: string, canvasSize: Size)
    requires |polygon.points| >= 1 && AllFramed(polygon.points)
    modifies ctx
    ensures ctx.ops == old(ctx.ops) + PolygonFill(polygon.points, color, canvasSize)
  {
    ctx.ops := ctx.ops + [BeginPath];
    var scaledPoint0 := RelativePoint(polygon.points[0], canvasSize);
    ctx.ops := ctx.ops + [MoveTo(Coord(scaledPoint0.x, scaledPoint0.y))];
    var rest := polygon.points[1..];
    for i := 0 to |rest|
      invariant ctx.ops == old(ctx.ops) + [BeginPath, MoveTo(Pixel(polygon.points[0], canvasSize))] + LineTos(rest[..i], canvasSize)
    {
      var scaledPoint := RelativePoint(rest[i], canvasSize);
      assert rest[..i + 1][..i] == rest[..i];
      ctx.ops := ctx.ops + [LineTo(Coord(scaledPoint.x, scaledPoint.y))];
    }
    assert rest[..|rest|] == rest;
    ctx.ops := ctx.ops + [ClosePath, Fill(color)];
  }

  /** The vertex colour of the controls: the region's channels at opacity 0.7. */
  function ControlPointColor(color: string): string {
    var rgba := GetColorFromString(color);
    BuildColorFromColorComponents([ComponentAt(rgba, 0), ComponentAt(rgba, 1), ComponentAt(rgba, 2), "0.7"])
  }

  /** The edge colour of the controls: the region's channels at opacity 1. */
  function ControlLineColor(color: string): string {
    var rgba := GetColorFromString(color);
    BuildColorFromColorComponents([ComponentAt(rgba, 0), ComponentAt(rgba, 1), ComponentAt(rgba, 2), "1"])
  }

  /** The control colours are the region colour with its opacity replaced. */
  lemma ControlColorsChangeOpacity(color: string)
    ensures ControlPointColor(color) == ChangeOpacityFromColor(color, "0.7")
    ensures ControlLineColor(color) == ChangeOpacityFromColor(color, "1")
  {
  }

  /** What drawPolygonControls issues at vertex `idx`. */
  function ControlStep(points: seq<Point>, idx: nat, pointColor: string, lineColor: string, canvasSize: Size): seq<Primitive>
    requires idx < |points| && AllFramed(points)
  {
    [CircleOf(points[idx], pointColor, canvasSize)]
    + (if idx > 0 then [LineOf(Vector2(points[idx - 1], points[idx]), lineColor, canvasSize)] else [])
    + (if idx == |points| - 1 then [LineOf(Vector2(points[|points| - 1], points[0]), lineColor, canvasSize)] else [])
  }

  /** What drawPolygonControls issues for the vertices before `k`. */
  function ControlsUpTo(points: seq<Point>, k: nat, pointColor: string, lineColor: string, canvasSize: Size): seq<Primitive>
    requires k <= |points| && AllFramed(points)
    decreases k
  {
    if k == 0 then []
    else ControlsUpTo(points, k - 1, pointColor, lineColor, canvasSize) + ControlStep(points, k - 1, pointColor, lineColor, canvasSize)
  }

  /** What drawPolygonControls issues for a polygon drawn in `color`. */
  function PolygonControls(points: seq<Point>, color: string, canvasSize: Size): seq<Primitive>
    requires AllFramed(points)
  {
    ControlsUpTo(points, |points|, ControlPointColor(color), ControlLineColor(color), canvasSize)
  }

  /** drawPolygonControls. */
  method DrawPolygonControls(ctx: Surface, polygon: Polygon, color: string, canvasSize: Size)
    requires AllFramed(polygon.points)
    modifies ctx
    ensures ctx.ops == old(ctx.ops) + PolygonControls(polygon.points, color, canvasSize)
  {
    var rgba := GetColorFromString(color);
    var pointColor := BuildColorFromColorComponents([ComponentAt(rgba, 0), ComponentAt(rgba, 1), ComponentAt(rgba, 2), "0.7"]);
    var lineColor := BuildColorFromColorComponents([ComponentAt(rgba, 0), ComponentAt(rgba, 1), ComponentAt(rgba, 2), "1"]);
    var points := polygon.points;
    for idx := 0 to |points|
      invariant ctx.ops == old(ctx.ops) + ControlsUpTo(points, idx, pointColor, lineColor, canvasSize)
    {
      DrawControl(ctx, points, idx, pointColor, lineColor, canvasSize);
    }
  }

  /** The per-vertex callback of drawPolygonControls: the marker, the edge from the previous vertex, the closing edge. */
  method DrawControl(ctx: Surface, points: seq<Point>, idx: nat, pointColor: string, lineColor: string, canvasSize: Size)
    requires idx < |points| && AllFramed(points)
    modifies ctx
    ensures ctx.ops == old(ctx.ops) + ControlStep(points, idx, pointColor, lineColor, canvasSize)
  {
    DrawCircle(ctx, points[idx], pointColor, canvasSize);
    if idx > 0 {
      DrawLine(ctx, Vector2(points[idx - 1], points[idx]), lineColor, canvasSize);
    }
    if idx == |points| - 1 {
      DrawLine(ctx, Vector2(points[|points| - 1], points[0]), lineColor, canvasSize);
    }
  }

  /**
   * Before the last vertex, the controls hold vertex 0's marker and then,
   * for each later vertex i, its marker followed by the edge from i - 1.
   */
  lemma {:induction false} ControlsPrefixLayout(points: seq<Point>, k: nat, pc: string, lc: string, f: Size)
    requires AllFramed(points) && 1 <= k < |points|
    ensures var r := ControlsUpTo(points, k, pc, lc, f);
            && |r| == 2 * k - 1
            && r[0] == CircleOf(points[0], pc, f)
            && forall i :: 1 <= i < k ==>
                 r[2 * i - 1] == CircleOf(points[i], pc, f) && r[2 * i] == LineOf(Vector2(points[i - 1], points[i]), lc, f)
    decreases k
  {
    if k > 1 {
      ControlsPrefixLayout(points, k - 1, pc, lc, f);
      var step := [CircleOf(points[k - 1], pc, f), LineOf(Vector2(points[k - 2], points[k - 1]), lc, f)];
      assert ControlStep(points, k - 1, pc, lc, f) == step;
    }
  }

  /**
   * For a polygon of n >= 1 vertices the controls are n markers and n edges:
   * marker 0, then marker i and the edge from i - 1 to i for each later i,
   * and finally the closing edge from the last vertex back to the first.
   */
  lemma PolygonControlsLayout(points: seq<Point>, color: string, f: Size)
    requires AllFramed(points) && |points| >= 1
    ensures var r := PolygonControls(points, color, f);
            var pc, lc, n := ControlPointColor(color), ControlLineColor(color), |points|;
            && |r| == 2 * n
            && r[0] == CircleOf(points[0], pc, f)
            && (forall i :: 1 <= i < n ==>
                 r[2 * i - 1] == CircleOf(points[i], pc, f) && r[2 * i] == LineOf(Vector2(points[i - 1], points[i]), lc, f))
            && r[2 * n - 1] == LineOf(Vector2(points[n - 1], points[0]), lc, f)
  {
    var pc, lc, n := ControlPointColor(color), ControlLineColor(color), |points|;
    if n > 1 {
      ControlsPrefixLayout(points, n - 1, pc, lc, f);
    }
  }

  /** What drawText issues: the text at the point's canvas position, in `${fontSize}px ${font}`. */
  function TextOf(text: string, point: Option<Point>, fontSize: nat, font: string, color: string, canvasSize: Size): Primitive
    requires point.Some? ==> WellFramed(point.value)
  {
    FillText(text, if point.Some? then Some(Pixel(point.value, canvasSize)) else None,
             NatToString(fontSize) + "px " + font, color)
  }

  /**
   * drawText. The point is None when its coordinates are not finite numbers
   * (the centroid of a polygon without area).
   */
  method DrawText(ctx: Surface, text: string, point: Option<Point>, fontSize: nat, font: string, color: string, canvasSize: Size)
    requires point.Some? ==> WellFramed(point.value)
    modifies ctx
    ensures ctx.ops == old(ctx.ops) + [TextOf(text, point, fontSize, font, color, canvasSize)]
  {
    var at: Option<Coord> := None;
    if point.Some? {
      var scaledPoint := RelativePoint(point.value, canvasSize);
      at := Some(Coord(scaledPoint.x, scaledPoint.y));
    }
    ctx.ops := ctx.ops + [FillText(text, at, NatToString(fontSize) + "px " + font, color)];
  }

  // ---------------------------------------------------------------------
  // Reserved keywords
  // ---------------------------------------------------------------------

  /** hasOverridingConfig: the region's label is a key of the table. */
  predicate HasOverridingConfig(dataArea: DataArea, configuration: ReservedKeyword) {
    dataArea.labelText in configuration
  }

  /** getOverridingConfiguration: the table entry for the region's label, if any. */
  function GetOverridingConfiguration(dataArea: DataArea, configuration: ReservedKeyword): (r: Option<ReservedKeywordConfiguration>)
    ensures r.Some? <==> dataArea.labelText in configuration
    ensures r.Some? ==> r.value == configuration[dataArea.labelText]
  {
    if HasOverridingConfig(dataArea, configuration) then Some(configuration[dataArea.labelText]) else None
  }

  /**
   * hasOverridingConfig agrees with the other two helpers: it holds exactly
   * when getOverridingConfiguration finds an entry, and without it the
   * override leaves the region as it is.
   */
  lemma OverridingConfigAgreement(dataArea: DataArea, configuration: ReservedKeyword)
    ensures HasOverridingConfig(dataArea, configuration) <==> GetOverridingConfiguration(dataArea, configuration).Some?
    ensures HasOverridingConfig(dataArea, configuration) ==>
              Overridden(dataArea, configuration).color == GetOverridingConfiguration(dataArea, configuration).value.polygonColor
    ensures !HasOverridingConfig(dataArea, configuration) ==> Overridden(dataArea, configuration) == dataArea
  {
  }

  /** The region as overrideDefaultConfigWithReservedKeywordConfig leaves it. */
  function Overridden(dataArea: DataArea, configuration: ReservedKeyword): (r: DataArea)
    ensures r.id == dataArea.id && r.labelText == dataArea.labelText && r.polygon == dataArea.polygon
    ensures dataArea.labelText in configuration ==> r.color == configuration[dataArea.labelText].polygonColor
    ensures dataArea.labelText !in configuration ==> r == dataArea
  {
    if HasOverridingConfig(dataArea, configuration)
    then dataArea.(color := configuration[dataArea.labelText].polygonColor)
    else dataArea
  }

  /** Applying the override twice is applying it once. */
  lemma OverriddenIdempotent(dataArea: DataArea, configuration: ReservedKeyword)
    ensures Overridden(Overridden(dataArea, configuration), configuration) == Overridden(dataArea, configuration)
  {
  }

  /** After the override, a reserved label always carries its configured colour, whatever colour it had. */
  lemma OverriddenColorIgnoresPrevious(dataArea: DataArea, color: string, configuration: ReservedKeyword)
    requires dataArea.labelText in configuration
    ensures Overridden(dataArea.(color := color), configuration) == Overridden(dataArea, configuration)
  {
  }

  /** A region held by reference, as the JavaScript object the override mutates. */
  class DataAreaObject {
    var id: Option<string>
    var polygon: Polygon
    var color: string
    var labelText: string

    function Value(): DataArea
      reads this
    {
      DataArea(id, polygon, color, labelText)
    }

    constructor (dataArea: DataArea)
      ensures Value() == dataArea
    {
      id, polygon, color, labelText := dataArea.id, dataArea.polygon, dataArea.color, dataArea.labelText;
    }
  }

  /** overrideDefaultConfigWithReservedKeywordConfig: sets the colour in place for a reserved label. */
  method OverrideDefaultConfigWithReservedKeywordConfig(dataArea: DataAreaObject, configuration: ReservedKeyword)
    modifies dataArea
    ensures dataArea.Value() == Overridden(old(dataArea.Value()), configuration)
  {
    if HasOverridingConfig(dataArea.Value(), configuration) {
      dataArea.color := configuration[dataArea.labelText].polygonColor;
    }
  }
}
