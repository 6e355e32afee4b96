/**
 * The loader panel (src/components/Loader/loader.tsx): loading an image,
 * loading a LabelMe document, exporting the regions and discarding the
 * image.
 *
 * The browser work behind each handler is passed in as its outcome: the
 * files the input holds, the object URL created for the image, the size
 * the image decodes to (None when it does not decode), and what reading
 * and parsing the document file produced.
 */
module Loader {
  import opened Wrappers
  import opened Geometry
  import opened Records
  import opened Draw
  import opened Interchange

  /** The canvas size assumed when the loader has not been told one. */
  const DefaultImageSize: Size := Size(1280.0, 720.0)

  /** The LabelMe format version written on export. */
  const LabelmeVersion: string := "4.6.0"

  const ImageLoadFailure: string := "Failed to load image. Are you sure submitted file was an image?"

  /** What reading and parsing a document file gives. */
  datatype FileContent =
    /** The reader produced nothing (an empty file). */
    | NoContent
    /** The text is not JSON: parsing throws and the handler stops. */
    | Unparsable
    | Parsed(labelme: Labelme)

  /** What the export handler hands to its callback: the document and the canvas size. */
  datatype ExportCall = ExportCall(labelme: Labelme, canvasSize: Size)

  /** The document exportDataAreas builds for the regions and the loaded image. */
  function ExportDocument(dataAreas: seq<DataArea>, imageData: ImageData): (labelme: Labelme)
    requires forall i :: 0 <= i < |dataAreas| ==> FramedArea(dataAreas[i])
    ensures labelme.version == LabelmeVersion
    ensures labelme.imageWidth == imageData.size.width && labelme.imageHeight == imageData.size.height
    ensures |labelme.shapes| == |dataAreas|
    ensures forall i :: 0 <= i < |dataAreas| ==> labelme.shapes[i] == MapDataAreaToShape(dataAreas[i], Some(imageData.size))
  {
    Labelme(LabelmeVersion, Flag,
            seq(|dataAreas|, i requires 0 <= i < |dataAreas| => MapDataAreaToShape(dataAreas[i], Some(imageData.size))),
            imageData.size.height, imageData.size.width)
  }

  /**
   * Re-importing an exported document onto a canvas gives back every
   * region's label and its vertices as mapped onto that canvas, with the
   * fresh ids and colours of the import.
   */
  lemma ExportImportDocument(dataAreas: seq<DataArea>, imageData: ImageData, canvasSize: Size,
                             ids: seq<string>, channels: seq<Rgb>)
    requires forall i :: 0 <= i < |dataAreas| ==> FramedArea(dataAreas[i])
    requires PositiveSize(imageData.size)
    requires |ids| == |dataAreas| && |channels| == |dataAreas|
    requires forall i :: 0 <= i < |channels| ==> channels[i].InByteRange()
    ensures WellFormedDocument(ExportDocument(dataAreas, imageData))
    ensures var back := MapLabelmeToDatashare(ExportDocument(dataAreas, imageData), canvasSize, ids, channels);
            && |back| == |dataAreas|
            && forall i :: 0 <= i < |dataAreas| ==>
                 && back[i].labelText == dataAreas[i].labelText
                 && back[i].polygon.points == RelativePoints(dataAreas[i].polygon.points, canvasSize)
  {
    var labelme := ExportDocument(dataAreas, imageData);
    assert DocumentFrame(labelme) == imageData.size;
    forall i | 0 <= i < |dataAreas| ensures PairsComplete(labelme.shapes[i].points) {
      ExportImportPoints(dataAreas[i].polygon.points, imageData.size, canvasSize);
    }
    var back := MapLabelmeToDatashare(labelme, canvasSize, ids, channels);
    forall i | 0 <= i < |dataAreas| ensures back[i].polygon.points == RelativePoints(dataAreas[i].polygon.points, canvasSize) {
      ExportImportPoints(dataAreas[i].polygon.points, imageData.size, canvasSize);
    }
  }

  /** Regions drawn on the canvas they are re-imported onto keep their polygons exactly. */
  lemma ExportImportDocumentSameCanvas(dataAreas: seq<DataArea>, imageData: ImageData, canvasSize: Size,
                                       ids: seq<string>, channels: seq<Rgb>)
    requires forall i :: 0 <= i < |dataAreas| ==> FramedArea(dataAreas[i])
    requires forall i, j :: 0 <= i < |dataAreas| && 0 <= j < |dataAreas[i].polygon.points| ==>
               dataAreas[i].polygon.points[j].scale == canvasSize
    requires PositiveSize(imageData.size)
    requires |ids| == |dataAreas| && |channels| == |dataAreas|
    requires forall i :: 0 <= i < |channels| ==> channels[i].InByteRange()
    ensures WellFormedDocument(ExportDocument(dataAreas, imageData))
    ensures var back := MapLabelmeToDatashare(ExportDocument(dataAreas, imageData), canvasSize, ids, channels);
            forall i :: 0 <= i < |dataAreas| ==>
              back[i] == dataAreas[i].(id := Some(ids[i]), color := GenerateRandomColor(channels[i], ImportedOpacity))
  {
    ExportImportDocument(dataAreas, imageData, canvasSize, ids, channels);
    var back := MapLabelmeToDatashare(ExportDocument(dataAreas, imageData), canvasSize, ids, channels);
    forall i | 0 <= i < |dataAreas|
      ensures back[i] == dataAreas[i].(id := Some(ids[i]), color := GenerateRandomColor(channels[i], ImportedOpacity))
    {
      var points := dataAreas[i].polygon.points;
      forall j | 0 <= j < |points| ensures RelativePoint(points[j], canvasSize) == points[j] {
        RelativePointOwnFrame(points[j]);
      }
      assert back[i].polygon.points == points;
    }
  }

  /** The loader panel's state. */
  class Loader {
    var error: bool
    var errorMessage: Option<string>
    var imageData: Option<ImageData>

    constructor ()
      ensures !error && errorMessage == None && imageData == None
    {
      error, errorMessage, imageData := false, None, None;
    }

    /**
     * exportDataAreas: the callback runs only when there are regions (an
     * empty list counts), a canvas size and a loaded image.
     */
    function ExportDataAreas(dataAreas: Option<seq<DataArea>>, canvasSize: Option<Size>): (call: Option<ExportCall>)
      reads this
      requires dataAreas.Some? ==> forall i :: 0 <= i < |dataAreas.value| ==> FramedArea(dataAreas.value[i])
      ensures call.Some? <==> dataAreas.Some? && canvasSize.Some? && imageData.Some?
      ensures call.Some? ==>
                && call.value.canvasSize == canvasSize.value
                && call.value.labelme == ExportDocument(dataAreas.value, imageData.value)
    {
      if dataAreas.Some? && canvasSize.Some? && imageData.Some?
      then Some(ExportCall(ExportDocument(dataAreas.value, imageData.value), canvasSize.value))
      else None
    }

    /**
     * loadImage. `files` is the input's file list (None when it has none);
     * with an empty list creating the object URL throws after the error
     * flag was cleared.
     */
    method LoadImage(files: Option<seq<string>>, imageUrl: string, decoded: Option<Size>)
      modifies this
      ensures files.None? ==> error == old(error) && errorMessage == old(errorMessage) && imageData == old(imageData)
      ensures files.Some? && |files.value| == 0 ==>
                !error && errorMessage == old(errorMessage) && imageData == old(imageData)
      ensures files.Some? && |files.value| > 0 && decoded.Some? ==>
                !error && errorMessage == old(errorMessage) && imageData == Some(ImageData(files.value[0], decoded.value, imageUrl))
      ensures files.Some? && |files.value| > 0 && decoded.None? ==>
                error && errorMessage == Some(ImageLoadFailure) && imageData == old(imageData)
    {
      if files.Some? {
        error := false;
        if |files.value| > 0 {
          var imageFile := files.value[0];
          if decoded.Some? {
            imageData := Some(ImageData(imageFile, Size(decoded.value.width, decoded.value.height), imageUrl));
          } else {
            error := true;
            errorMessage := Some(ImageLoadFailure);
          }
        }
      }
    }

    /**
     * loadData. Returns the regions handed to the canvas, if any; the
     * canvas size defaults to 1280 x 720. Ids and colour channels for the
     * imported regions are passed in.
     */
    method LoadData(files: Option<seq<string>>, content: FileContent, canvasSize: Option<Size>,
                    ids: seq<string>, channels: seq<Rgb>)
      returns (loaded: Option<seq<DataArea>>)
      requires content.Parsed? ==> |ids| == |content.labelme.shapes| && |channels| == |content.labelme.shapes|
      requires forall i :: 0 <= i < |channels| ==> channels[i].InByteRange()
      modifies this
      ensures errorMessage == old(errorMessage) && imageData == old(imageData)
      ensures error == (old(error) && files.None?)
      ensures loaded.Some? <==>
                files.Some? && |files.value| > 0 && content.Parsed? && WellFormedDocument(content.labelme)
      ensures loaded.Some? ==>
                loaded.value == MapLabelmeToDatashare(content.labelme, canvasSize.GetOr(DefaultImageSize), ids, channels)
    {
      loaded := None;
      if files.Some? {
        error := false;
        if |files.value| > 0 && content.Parsed? && WellFormedDocument(content.labelme) {
          var dataAreas := MapLabelmeToDatashare(content.labelme, canvasSize.GetOr(DefaultImageSize), ids, channels);
          loaded := Some(dataAreas);
        }
      }
    }

    /** deleteImageData: forgets the loaded image. */
    method DeleteImageData()
      modifies this
      ensures imageData == None
      ensures error == old(error) && errorMessage == old(errorMessage)
    {
      imageData := None;
    }
  }
}
