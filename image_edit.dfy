/**
 * The sticker editor page: the user's photo is cropped to its centred square, then a
 * decorative frame is layered over it on a 240 x 240 canvas and the result can be
 * saved to the album.
 */
module ImageEdit {
  import opened Wrappers
  import opened ImageUtils
  import TouchGestures

  /** The frame path that stands for "no frame": it is never drawn. */
  const Placeholder: string := "/images/placeholder.png"

  /** A square source region: top-left corner and side length. */
  datatype SquareRegion = SquareRegion(x: real, y: real, size: real)

  /** How a request to save the result ends. */
  datatype SaveOutcome = NothingToSave | Saved | NeedsAuthorization | SaveFailed

  /** The source region `cropToSquare` draws: the largest centred square of the image. */
  function CropToSquare(width: Dimension, height: Dimension): SquareRegion
  {
    var size := TouchGestures.Min(width, height);
    SquareRegion((width - size) / 2.0, (height - size) / 2.0, size)
  }

  /**
   * The square lies inside the image with equal margins on both sides of each axis,
   * touches two opposite edges (one margin is zero), and no larger square would fit.
   */
  lemma CropToSquareProperties(width: Dimension, height: Dimension)
    ensures var r := CropToSquare(width, height);
      && 0.0 < r.size
      && 0.0 <= r.x && r.x + r.size + r.x == width
      && 0.0 <= r.y && r.y + r.size + r.y == height
      && (r.x == 0.0 || r.y == 0.0)
      && (r.size == width || r.size == height)
  {
  }

  /**
   * The images `compositeImages` draws, bottom to top: the photo, then the frame unless
   * the frame path is empty or the placeholder.
   */
  function FrameLayers(userImagePath: string, frameImagePath: string): (layers: seq<string>)
    ensures 1 <= |layers| <= 2 && layers[0] == userImagePath
    ensures |layers| == 2 <==> frameImagePath != "" && frameImagePath != Placeholder
    ensures |layers| == 2 ==> layers[1] == frameImagePath
  {
    if frameImagePath != "" && frameImagePath != Placeholder then [userImagePath, frameImagePath] else [userImagePath]
  }

  /** `s` occurs in `text` as a contiguous run (`String.prototype.includes`). */
  predicate Contains(text: string, s: string)
    decreases |text|
  {
    s <= text || (text != [] && Contains(text[1..], s))
  }

  /** The page's state. */
  class ImageEditPage {
    var userImage: string
    var croppedImage: string
    /** Read by the preview and composition, but assigned nowhere on this page. */
    var framePath: string
    var resultImage: string
    var generating: bool

    constructor ()
      ensures userImage == "" && croppedImage == "" && framePath == "" && resultImage == "" && !generating
    {
      userImage, croppedImage, framePath, resultImage, generating := "", "", "", "", false;
    }

    /** `chooseImage` succeeded: the picked file becomes the user image and its crop starts. */
    method ChooseImage(tempFilePath: string)
      modifies this`userImage
      ensures userImage == tempFilePath
    {
      userImage := tempFilePath;
    }

    /**
     * `cropToSquare` ended: on success the exported 240 x 240 square becomes the cropped
     * image and the preview is generated; a failure leaves the page as it was.
     */
    method CompleteCrop(exported: Option<string>) returns (preview: Option<seq<string>>)
      modifies this`croppedImage
      ensures exported.None? ==> croppedImage == old(croppedImage) && preview == None
      ensures exported.Some? ==> croppedImage == exported.value
      ensures exported.Some? ==> preview == (if exported.value != "" && framePath != "" then Some(FrameLayers(croppedImage, framePath)) else None)
    {
      preview := None;
      if exported.Some? {
        croppedImage := exported.value;
        preview := GeneratePreview();
      }
    }

    /** `generatePreview`: composes only when both a cropped photo and a frame path exist. */
    method GeneratePreview() returns (layers: Option<seq<string>>)
      ensures croppedImage == "" || framePath == "" ==> layers == None
      ensures croppedImage != "" && framePath != "" ==> layers == Some(FrameLayers(croppedImage, framePath))
    {
      if croppedImage == "" || framePath == "" {
        return None;
      }
      layers := Some(FrameLayers(croppedImage, framePath));
    }

    /** `generateImage`: refused without a cropped photo; otherwise starts composing and marks the page busy. */
    method GenerateImage() returns (layers: Option<seq<string>>)
      modifies this`generating
      ensures croppedImage == "" ==> layers == None && generating == old(generating)
      ensures croppedImage != "" ==> layers == Some(FrameLayers(croppedImage, framePath)) && generating
    {
      if croppedImage == "" {
        return None;
      }
      generating := true;
      layers := Some(FrameLayers(croppedImage, framePath));
    }

    /** The composition ended: a success records the result; either way the page is no longer busy. */
    method CompleteGenerateImage(exported: Option<string>)
      modifies this`resultImage, this`generating
      ensures !generating
      ensures exported.Some? ==> resultImage == exported.value
      ensures exported.None? ==> resultImage == old(resultImage)
    {
      if exported.Some? {
        resultImage := exported.value;
      }
      generating := false;
    }

    /**
     * `saveImage`: nothing to save without a result; otherwise the album call either
     * succeeds or fails with a message, and a message mentioning "auth deny" asks the
     * user to grant access.
     */
    method SaveImage(failure: Option<string>) returns (outcome: SaveOutcome)
      ensures resultImage == "" ==> outcome == NothingToSave
      ensures resultImage != "" && failure.None? ==> outcome == Saved
      ensures resultImage != "" && failure.Some? ==>
        outcome == (if Contains(failure.value, "auth deny") then NeedsAuthorization else SaveFailed)
    {
      if resultImage == "" {
        return NothingToSave;
      }
      match failure {
        case None =>
          outcome := Saved;
        case Some(errMsg) =>
          outcome := if Contains(errMsg, "auth deny") then NeedsAuthorization else SaveFailed;
      }
    }
  }
}
