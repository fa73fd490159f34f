/**
 * The image helpers shared by the picture-book pages: the centred crop rectangle for
 * a target aspect ratio, the size-bounded compression, their composition, and the
 * background-removal placeholder.
 *
 * Every host call (`wx.getImageInfo`, `wx.getFileInfo`, `wx.compressImage`,
 * `wx.showModal`) is a parameter holding what the call reported: `Some` for its
 * `success` callback, `None` for its `fail` callback.
 */
module ImageUtils {
  import opened Wrappers

  /** A width or height in pixels, as the host reports it for a decoded image. */
  type Dimension = x: real | 0.0 < x witness 1.0

  /** What `wx.getImageInfo` reports about an image. */
  datatype ImageInfo = ImageInfo(width: Dimension, height: Dimension)

  /** The crop record: source region (sx, sy, sw, sh), source size and target size. */
  datatype CropData = CropData(
    sx: real, sy: real, sw: real, sh: real,
    sourceWidth: real, sourceHeight: real,
    targetWidth: real, targetHeight: real)

  /** What `cropAndResize` resolves with: a file and the crop to apply to it. */
  datatype Cropped = Cropped(filePath: string, cropData: CropData)

  /**
   * The centred crop of a source image with the target's aspect ratio: when the source
   * is wider than the target, the full height is kept and the sides are cut equally;
   * otherwise the full width is kept and top and bottom are cut equally.
   */
  function CropRect(sourceWidth: Dimension, sourceHeight: Dimension, targetWidth: Dimension, targetHeight: Dimension): (c: CropData)
    ensures c.sourceWidth == sourceWidth && c.sourceHeight == sourceHeight
    ensures c.targetWidth == targetWidth && c.targetHeight == targetHeight
  {
    var sourceAspect := sourceWidth / sourceHeight;
    var targetAspect := targetWidth / targetHeight;
    if sourceAspect > targetAspect then
      var sw := sourceHeight * targetAspect;
      CropData((sourceWidth - sw) / 2.0, 0.0, sw, sourceHeight, sourceWidth, sourceHeight, targetWidth, targetHeight)
    else
      var sh := sourceWidth / targetAspect;
      CropData(0.0, (sourceHeight - sh) / 2.0, sourceWidth, sh, sourceWidth, sourceHeight, targetWidth, targetHeight)
  }

  /** a / b > c / d for positive denominators, without division. */
  lemma RatioGreater(a: real, b: real, c: real, d: real)
    requires 0.0 < b && 0.0 < d
    ensures a / b > c / d <==> a * d > c * b
  {
    assert a / b * (b * d) == a * d;
    assert c / d * (b * d) == c * b;
    ProductOrder(a / b, c / d, b * d);
  }

  /** Multiplying by a positive factor keeps the order. */
  lemma ProductOrder(x: real, y: real, k: real)
    requires 0.0 < k
    ensures x > y <==> x * k > y * k
  {
    assert x * k - y * k == (x - y) * k;
  }

  /**
   * The crop rectangle lies inside the source, is centred in it, keeps one side whole,
   * is non-empty, and has exactly the target's aspect ratio.
   */
  lemma CropRectProperties(sourceWidth: Dimension, sourceHeight: Dimension, targetWidth: Dimension, targetHeight: Dimension)
    ensures var c := CropRect(sourceWidth, sourceHeight, targetWidth, targetHeight);
      && 0.0 < c.sw && 0.0 < c.sh
      && 0.0 <= c.sx && 0.0 <= c.sy
      && c.sx + c.sw + c.sx == sourceWidth
      && c.sy + c.sh + c.sy == sourceHeight
      && (c.sw == sourceWidth || c.sh == sourceHeight)
      && c.sw * targetHeight == c.sh * targetWidth
  {
    var c := CropRect(sourceWidth, sourceHeight, targetWidth, targetHeight);
    var targetAspect := targetWidth / targetHeight;
    assert targetAspect * targetHeight == targetWidth;
    RatioGreater(sourceWidth, sourceHeight, targetWidth, targetHeight);
    if sourceWidth / sourceHeight > targetAspect {
      assert c.sw == sourceHeight * targetAspect;
      assert c.sw * targetHeight == sourceHeight * targetWidth;
      assert sourceWidth * targetHeight > targetWidth * sourceHeight;
      ProductOrder(sourceWidth, c.sw, targetHeight);
    } else {
      assert c.sh == sourceWidth / targetAspect;
      assert c.sh * targetAspect == sourceWidth;
      assert c.sh * targetWidth == sourceWidth * targetHeight by {
        assert c.sh * targetWidth == c.sh * targetAspect * targetHeight;
      }
      ProductOrder(sourceHeight, c.sh, targetWidth);
    }
  }

  /**
   * `cropAndResize`: fails when the image cannot be read; otherwise hands back the
   * original file (no pixels are cropped) with the crop computed from its size.
   */
  function CropAndResize(imagePath: string, targetWidth: Dimension, targetHeight: Dimension, info: Option<ImageInfo>): (r: Result<Cropped, HostFailure>)
    ensures info.None? <==> r.Err?
    ensures r.Ok? ==> r.value.filePath == imagePath
    ensures r.Ok? ==> r.value.cropData.sourceWidth == info.value.width && r.value.cropData.sourceHeight == info.value.height
    ensures r.Ok? ==> r.value.cropData.targetWidth == targetWidth && r.value.cropData.targetHeight == targetHeight
  {
    match info
    case None => Err(HostFailure)
    case Some(i) => Ok(Cropped(imagePath, CropRect(i.width, i.height, targetWidth, targetHeight)))
  }

  /** File size in kilobytes as the source computes it (bytes / 1024, not rounded). */
  function SizeKB(bytes: nat): real
  {
    bytes as real / 1024.0
  }

  /**
   * `compressImage`: a file already within `maxSizeKB` is returned as is; otherwise it
   * is recompressed at quality 80 and the recompressed file is returned whatever its
   * size. `size` is the first `wx.getFileInfo`, `compressed` the `wx.compressImage`
   * result and `compressedSize` the second `wx.getFileInfo`.
   */
  function CompressImage(imagePath: string, maxSizeKB: real, size: Option<nat>, compressed: Option<string>, compressedSize: Option<nat>): (r: Result<string, HostFailure>)
  {
    match size
    case None => Err(HostFailure)
    case Some(bytes) =>
      if SizeKB(bytes) <= maxSizeKB then Ok(imagePath)
      else
        match compressed
        case None => Err(HostFailure)
        case Some(tempFilePath) =>
          match compressedSize
          case None => Err(HostFailure)
          case Some(compressedBytes) =>
            if SizeKB(compressedBytes) <= maxSizeKB then Ok(tempFilePath) else Ok(tempFilePath)
  }

  /**
   * What compression resolves with: the original file exactly when it is within the
   * limit; otherwise the recompressed file once both follow-up calls succeed; a
   * rejection whenever a call that is reached fails.
   */
  lemma CompressImageOutcome(imagePath: string, maxSizeKB: real, size: Option<nat>, compressed: Option<string>, compressedSize: Option<nat>)
    ensures var r := CompressImage(imagePath, maxSizeKB, size, compressed, compressedSize);
      && (size.None? ==> r == Err(HostFailure))
      && (size.Some? && SizeKB(size.value) <= maxSizeKB ==> r == Ok(imagePath))
      && (size.Some? && SizeKB(size.value) > maxSizeKB ==>
            r == (if compressed.Some? && compressedSize.Some? then Ok(compressed.value) else Err(HostFailure)))
  {
  }

  /**
   * The size of the recompressed file never changes the outcome: an over-limit result
   * is resolved like a within-limit one, so the limit is not enforced.
   */
  lemma CompressedSizeIgnored(imagePath: string, maxSizeKB: real, size: nat, compressed: string, size1: nat, size2: nat)
    ensures CompressImage(imagePath, maxSizeKB, Some(size), Some(compressed), Some(size1))
         == CompressImage(imagePath, maxSizeKB, Some(size), Some(compressed), Some(size2))
  {
  }

  /** A file within the limit needs no further host call: their outcomes are irrelevant. */
  lemma SmallFileUntouched(imagePath: string, maxSizeKB: real, size: nat, compressed: Option<string>, compressedSize: Option<nat>)
    requires SizeKB(size) <= maxSizeKB
    ensures CompressImage(imagePath, maxSizeKB, Some(size), compressed, compressedSize) == Ok(imagePath)
  {
  }

  /** `processAndCompressImage`: crop, then compress the cropped result's file. */
  function ProcessAndCompressImage(imagePath: string, targetWidth: Dimension, targetHeight: Dimension, maxSizeKB: real,
                                   info: Option<ImageInfo>, size: Option<nat>, compressed: Option<string>, compressedSize: Option<nat>): (r: Result<string, HostFailure>)
    ensures info.None? ==> r == Err(HostFailure)
  {
    match CropAndResize(imagePath, targetWidth, targetHeight, info)
    case Err(e) => Err(e)
    case Ok(cropped) => CompressImage(cropped.filePath, maxSizeKB, size, compressed, compressedSize)
  }

  /**
   * Since the crop is not applied to the pixels, processing an image is compressing the
   * original file once its size can be read: the target size has no effect.
   */
  lemma ProcessIsCompressOfOriginal(imagePath: string, targetWidth: Dimension, targetHeight: Dimension, maxSizeKB: real,
                                    info: ImageInfo, size: Option<nat>, compressed: Option<string>, compressedSize: Option<nat>)
    ensures ProcessAndCompressImage(imagePath, targetWidth, targetHeight, maxSizeKB, Some(info), size, compressed, compressedSize)
         == CompressImage(imagePath, maxSizeKB, size, compressed, compressedSize)
  {
  }

  /**
   * `removeBackground`: whether the notice dialog succeeds or fails, the promise
   * resolves with the unchanged image.
   */
  function RemoveBackground(imagePath: string, modal: Option<()>): (processedImagePath: string)
    ensures processedImagePath == imagePath
  {
    match modal
    case Some(_) => imagePath
    case None => imagePath
  }
}
