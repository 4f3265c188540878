/**
 * RosterController.convertRoster: the upload checks in their fixed order (presence, size,
 * format, readable bytes, JPEG/PNG signature, decodability) and the metadata body returned
 * when all pass. The multipart upload is a record; ImageIO.read is a function parameter.
 */
module RosterController {
  import opened Wrappers
  import opened Http
  import opened JavaInt
  import opened Text
  import opened JsonValue

  /**
   * A MultipartFile: original name and content type (None is null), declared size, whether
   * it is empty, and its bytes (None when getBytes throws).
   */
  datatype MultipartFile = MultipartFile(
    originalFilename: Option<string>,
    contentType: Option<string>,
    size: int,
    isEmpty: bool,
    bytes: Option<seq<Byte>>)

  /** The size of a decoded image, the only part of it the controller uses. */
  datatype Dimensions = Dimensions(width: Int32, height: Int32)

  /** The upload limit when none is configured: 5 MiB. */
  const DEFAULT_MAX_BYTES: int := 5 * 1024 * 1024

  /** The PNG file signature (section 3.1 of RFC 2083). */
  const PNG_SIGNATURE: seq<Byte> := [0x89, 0x50, 0x4E, 0x47, 0x0D, 0x0A, 0x1A, 0x0A]

  /** SOI marker FF D8 (ITU-T T.81, Table B.1) and the first byte of the next marker. */
  const JPEG_PREFIX: seq<Byte> := [0xFF, 0xD8, 0xFF]

  const IMAGE_REQUIRED: StatusError := StatusError(BAD_REQUEST, "image is required")
  const TOO_LARGE: StatusError := StatusError(BAD_REQUEST, "image exceeds max size")
  const BAD_FORMAT: StatusError := StatusError(BAD_REQUEST, "format must be JSON or ICS")
  const UNREADABLE: StatusError := StatusError(BAD_REQUEST, "unable to read image")
  const NOT_JPG_OR_PNG: StatusError := StatusError(BAD_REQUEST, "image must be JPG or PNG")
  const INVALID_CONTENT: StatusError := StatusError(BAD_REQUEST, "invalid image content")

  /** isJpeg: at least three bytes, starting FF D8 FF. */
  predicate IsJpeg(bytes: seq<Byte>)
    ensures IsJpeg(bytes) <==> |bytes| >= 3 && bytes[..3] == JPEG_PREFIX
  {
    |bytes| >= 3 && bytes[0] == 0xFF && bytes[1] == 0xD8 && bytes[2] == 0xFF
  }

  /** isPng: at least eight bytes, starting with the PNG signature. */
  predicate IsPng(bytes: seq<Byte>)
    ensures IsPng(bytes) <==> |bytes| >= 8 && bytes[..8] == PNG_SIGNATURE
  {
    && |bytes| >= 8
    && bytes[0] == 0x89 && bytes[1] == 0x50 && bytes[2] == 0x4E && bytes[3] == 0x47
    && bytes[4] == 0x0D && bytes[5] == 0x0A && bytes[6] == 0x1A && bytes[7] == 0x0A
  }

  predicate IsJpegOrPng(bytes: seq<Byte>)
  {
    IsJpeg(bytes) || IsPng(bytes)
  }

  /** A file shorter than three bytes is never taken for an image, and no file is both kinds. */
  lemma SignaturesExclusive(bytes: seq<Byte>)
    ensures |bytes| < 3 ==> !IsJpegOrPng(bytes)
    ensures !(IsJpeg(bytes) && IsPng(bytes))
    ensures IsJpegOrPng(bytes) ==> |bytes| >= 3
  {
  }

  /** normalizeFormat: null or blank means "json"; anything else is trimmed and lower-cased. */
  function NormalizeFormat(format: Option<string>): (r: string)
    ensures format.None? || IsBlank(format.value) ==> r == "json"
    ensures format.Some? && !IsBlank(format.value) ==> r == ToLowerAscii(Trim(format.value))
  {
    if format.None? || IsBlank(format.value) then "json" else ToLowerAscii(Trim(format.value))
  }

  predicate FormatAccepted(normalized: string)
  {
    normalized == "json" || normalized == "ics"
  }

  lemma LowerCharClass(c: char)
    ensures IsJavaWhitespace(LowerChar(c)) <==> IsJavaWhitespace(c)
    ensures IsTrimmable(LowerChar(c)) <==> IsTrimmable(c)
    ensures LowerChar(LowerChar(c)) == LowerChar(c)
  {
  }

  lemma {:induction false} LowerTrimStart(s: string)
    ensures TrimStart(ToLowerAscii(s)) == ToLowerAscii(TrimStart(s))
  {
    if s != [] {
      LowerCharClass(s[0]);
      if IsTrimmable(s[0]) {
        assert ToLowerAscii(s)[1..] == ToLowerAscii(s[1..]);
        LowerTrimStart(s[1..]);
      }
    }
  }

  lemma {:induction false} LowerTrimEnd(s: string)
    ensures TrimEnd(ToLowerAscii(s)) == ToLowerAscii(TrimEnd(s))
  {
    if s != [] {
      LowerCharClass(s[|s| - 1]);
      if IsTrimmable(s[|s| - 1]) {
        assert ToLowerAscii(s)[..|s| - 1] == ToLowerAscii(s[..|s| - 1]);
        LowerTrimEnd(s[..|s| - 1]);
      }
    }
  }

  lemma LowerTwice(s: string)
    ensures ToLowerAscii(ToLowerAscii(s)) == ToLowerAscii(s)
  {
    forall i | 0 <= i < |s| ensures ToLowerAscii(ToLowerAscii(s))[i] == ToLowerAscii(s)[i] {
      LowerCharClass(s[i]);
    }
  }

  /** The format parameter is case-insensitive: lower-casing it first changes nothing. */
  lemma FormatCaseInsensitive(s: string)
    ensures NormalizeFormat(Some(ToLowerAscii(s))) == NormalizeFormat(Some(s))
  {
    var l := ToLowerAscii(s);
    assert IsBlank(l) <==> IsBlank(s) by {
      forall i | 0 <= i < |s| ensures IsJavaWhitespace(l[i]) <==> IsJavaWhitespace(s[i]) {
        LowerCharClass(s[i]);
      }
    }
    if !IsBlank(s) {
      LowerTrimStart(s);
      LowerTrimEnd(TrimStart(s));
      LowerTwice(Trim(s));
    }
  }

  /** An upload is present when the part exists and is not empty. */
  predicate Present(image: Option<MultipartFile>)
  {
    image.Some? && !image.value.isEmpty
  }

  /** A Java String field of the body: null or the text. */
  function TextOrNull(s: Option<string>): Json
  {
    if s.Some? then JString(s.value) else JNull
  }

  function Keys(body: JsonObject): seq<string>
  {
    seq(|body|, i requires 0 <= i < |body| => body[i].0)
  }

  /** A body built field by field has the six keys of the response in order, each with its value. */
  lemma FieldsOneByOne(body: JsonObject, a: Json, b: Json, c: Json, d: Json, e: Json, f: Json)
    requires body == [] + [("filename", a)] + [("content_type", b)] + [("size_bytes", c)]
                     + [("width", d)] + [("height", e)] + [("requested_format", f)]
    ensures Keys(body) == ["filename", "content_type", "size_bytes", "width", "height", "requested_format"]
    ensures body[0].1 == a && body[1].1 == b && body[2].1 == c && body[3].1 == d && body[4].1 == e && body[5].1 == f
  {
    assert body == [("filename", a), ("content_type", b), ("size_bytes", c),
                    ("width", d), ("height", e), ("requested_format", f)];
  }

  /**
   * convertRoster. Each check runs only when the earlier ones passed, and the first that
   * fails decides the 400; a size equal to the limit passes. On success the body lists the
   * file's name, content type and size, the image's width and height, and the normalised
   * format, in that order.
   */
  method ConvertRoster(maxUploadBytes: int, image: Option<MultipartFile>, format: Option<string>,
                       readImage: seq<Byte> -> Option<Dimensions>)
    returns (r: Result<JsonObject, StatusError>)
    ensures !Present(image) ==> r == Failure(IMAGE_REQUIRED)
    ensures Present(image) && image.value.size > maxUploadBytes ==> r == Failure(TOO_LARGE)
    ensures Present(image) && image.value.size <= maxUploadBytes && !FormatAccepted(NormalizeFormat(format)) ==>
              r == Failure(BAD_FORMAT)
    ensures Present(image) && image.value.size <= maxUploadBytes && FormatAccepted(NormalizeFormat(format)) ==>
              var file := image.value;
              && (file.bytes.None? ==> r == Failure(UNREADABLE))
              && (file.bytes.Some? && !IsJpegOrPng(file.bytes.value) ==> r == Failure(NOT_JPG_OR_PNG))
              && (file.bytes.Some? && IsJpegOrPng(file.bytes.value) && readImage(file.bytes.value).None? ==>
                    r == Failure(INVALID_CONTENT))
              && (file.bytes.Some? && IsJpegOrPng(file.bytes.value) && readImage(file.bytes.value).Some? ==>
                    r.Success?)
    ensures r.Success? ==>
              && Present(image) && image.value.bytes.Some? && readImage(image.value.bytes.value).Some?
              && Keys(r.value) == ["filename", "content_type", "size_bytes", "width", "height", "requested_format"]
              && r.value[0].1 == TextOrNull(image.value.originalFilename)
              && r.value[1].1 == TextOrNull(image.value.contentType)
              && r.value[2].1 == JNumber(image.value.size)
              && r.value[3].1 == JNumber(readImage(image.value.bytes.value).value.width)
              && r.value[4].1 == JNumber(readImage(image.value.bytes.value).value.height)
              && r.value[5].1 == JString(NormalizeFormat(format))
    ensures r.Failure? ==> r.error.status == BAD_REQUEST
  {
    if image.None? || image.value.isEmpty {
      return Failure(IMAGE_REQUIRED);
    }
    var file := image.value;
    if file.size > maxUploadBytes {
      return Failure(TOO_LARGE);
    }
    var normalizedFormat := NormalizeFormat(format);
    if normalizedFormat != "json" && normalizedFormat != "ics" {
      return Failure(BAD_FORMAT);
    }
    if file.bytes.None? {
      return Failure(UNREADABLE);
    }
    var bytes := file.bytes.value;
    if !IsJpegOrPng(bytes) {
      return Failure(NOT_JPG_OR_PNG);
    }
    var decoded := readImage(bytes);
    if decoded.None? {
      return Failure(INVALID_CONTENT);
    }
    var body: JsonObject := [];
    body := body + [("filename", TextOrNull(file.originalFilename))];
    body := body + [("content_type", TextOrNull(file.contentType))];
    body := body + [("size_bytes", JNumber(file.size))];
    body := body + [("width", JNumber(decoded.value.width))];
    body := body + [("height", JNumber(decoded.value.height))];
    body := body + [("requested_format", JString(normalizedFormat))];
    FieldsOneByOne(body, TextOrNull(file.originalFilename), TextOrNull(file.contentType), JNumber(file.size),
                   JNumber(decoded.value.width), JNumber(decoded.value.height), JString(normalizedFormat));
    return Success(body);
  }
}
