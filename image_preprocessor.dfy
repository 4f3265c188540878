/**
 * RosterImagePreprocessor.preparePng with pixels abstracted: the decoded image is its size
 * and whether it carries alpha; decoding and PNG encoding are function parameters. What is
 * modelled is the width rule, the size of the image that gets encoded, and the failures.
 */
module ImagePreprocessor {
  import opened Wrappers
  import opened JavaInt

  /** A BufferedImage: width, height and whether its type has an alpha channel. */
  datatype Raster = Raster(width: int, height: int, hasAlpha: bool)

  /** The images ImageIO hands back: at least one pixel each way, sizes within an int. */
  type Image = r: Raster | 1 <= r.width <= INT_MAX && 1 <= r.height <= INT_MAX witness Raster(1, 1, false)

  /** An IOException and its message. */
  datatype IoError = IOException(message: string)

  const MIN_WIDTH: int := 1500
  const SCALE_FACTOR: int := 2
  const UNSUPPORTED: IoError := IOException("Unsupported image content")
  const WRITE_FAILED: IoError := IOException("Failed to write PNG")

  /** The image after the width rule: narrower than 1500 doubles both sides into an RGB image. */
  function Resized(image: Image): (r: Raster)
    ensures image.width < MIN_WIDTH ==> r.width == SCALE_FACTOR * image.width && r.height == SCALE_FACTOR * image.height
    ensures image.width >= MIN_WIDTH ==> r == image
  {
    if image.width < MIN_WIDTH then Raster(image.width * SCALE_FACTOR, image.height * SCALE_FACTOR, false)
    else image
  }

  /** The TYPE_INT_RGB copy drawn from the resized image: same size, no alpha. */
  function RgbCopy(resized: Raster): (r: Raster)
    ensures r.width == resized.width && r.height == resized.height && !r.hasAlpha
  {
    Raster(resized.width, resized.height, false)
  }

  /** The image preparePng encodes for a decoded image. */
  function Encoded(image: Image): (r: Raster)
    ensures !r.hasAlpha
    ensures image.width < MIN_WIDTH ==> r.width == 2 * image.width && r.height == 2 * image.height
    ensures image.width >= MIN_WIDTH ==> r.width == image.width && r.height == image.height
    ensures r.width >= image.width && r.height >= image.height
  {
    RgbCopy(Resized(image))
  }

  /** Only the width decides whether the image is scaled: the height and alpha never do. */
  lemma ScalingDependsOnWidthOnly(a: Image, b: Image)
    requires a.width == b.width
    ensures (Encoded(a).height == a.height) == (Encoded(b).height == b.height)
    ensures Encoded(a).width == Encoded(b).width
  {
  }

  /** The encoded image differs in size from the input exactly when the input is narrower than 1500. */
  lemma ScaledIffNarrow(image: Image)
    ensures Encoded(image) != Raster(image.width, image.height, false) <==> image.width < MIN_WIDTH
  {
  }

  /**
   * preparePng: an ImageIO.read failure propagates, an unreadable format is "Unsupported image
   * content", a writer that declines is "Failed to write PNG", and otherwise the PNG of the
   * opaque, possibly doubled image.
   *   decode: ImageIO.read — Failure is a thrown IOException, None is a null image.
   *   encode: ImageIO.write to a byte stream — Failure is a thrown IOException, None is `false`.
   */
  function PreparePng(input: seq<Byte>,
                      decode: seq<Byte> -> Result<Option<Image>, IoError>,
                      encode: Raster -> Result<Option<seq<Byte>>, IoError>): (r: Result<seq<Byte>, IoError>)
    ensures decode(input).Failure? ==> r == Failure(decode(input).error)
    ensures decode(input) == Success(None) ==> r == Failure(UNSUPPORTED)
    ensures decode(input).Success? && decode(input).value.Some? ==>
              var rgb := Encoded(decode(input).value.value);
              && (encode(rgb).Failure? ==> r == Failure(encode(rgb).error))
              && (encode(rgb) == Success(None) ==> r == Failure(WRITE_FAILED))
              && (encode(rgb).Success? && encode(rgb).value.Some? ==> r == Success(encode(rgb).value.value))
  {
    var decoded :- decode(input);
    if decoded.None? then Failure(UNSUPPORTED)
    else
      var written :- encode(Encoded(decoded.value));
      if written.None? then Failure(WRITE_FAILED) else Success(written.value)
  }
}
