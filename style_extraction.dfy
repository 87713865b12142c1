/**
 * The style-extraction service (backend/app.py): the dominant colours of
 * an image as `#rrggbb` strings, a verdict on whether the image holds
 * legible text, and the `/extract-styles` endpoint that returns both.
 *
 * Decoding the image, k-means clustering and OCR are done by OpenCV,
 * Pillow and Tesseract; here their results are inputs: `ColorAnalysis`
 * for what the colour pipeline got to, `OcrOutcome` for what the OCR
 * pipeline got to.
 */
module StyleExtraction {
  import opened Wrappers

  newtype byte = x: int | 0 <= x < 256

  /** A cluster centre after `np.uint8`, in OpenCV's channel order. */
  datatype Bgr = Bgr(b: byte, g: byte, r: byte)

  // ---------------------------------------------------------------------
  // Hex encoding of a colour (line 54)

  predicate IsLowerHexDigit(c: char) {
    '0' <= c <= '9' || 'a' <= c <= 'f'
  }

  /** `#` followed by six lowercase hex digits. */
  predicate IsHexColor(s: string) {
    |s| == 7 && s[0] == '#' && forall i :: 1 <= i < 7 ==> IsLowerHexDigit(s[i])
  }

  function HexDigit(n: nat): (c: char)
    requires n < 16
    ensures IsLowerHexDigit(c)
  {
    if n < 10 then (48 + n) as char else (87 + n) as char
  }

  function HexValue(c: char): (n: nat)
    requires IsLowerHexDigit(c)
    ensures n < 16 && HexDigit(n) == c
  {
    if c <= '9' then c as int - 48 else c as int - 87
  }

  lemma HexDigitValue(n: nat)
    requires n < 16
    ensures HexValue(HexDigit(n)) == n
  {
  }

  /** `'{:02x}'.format(v)` for a byte: always exactly two digits. */
  function Hex2(v: byte): (s: string)
    ensures |s| == 2 && IsLowerHexDigit(s[0]) && IsLowerHexDigit(s[1])
    ensures 16 * HexValue(s[0]) + HexValue(s[1]) == v as int
  {
    HexDigitValue(v as int / 16);
    HexDigitValue(v as int % 16);
    [HexDigit(v as int / 16), HexDigit(v as int % 16)]
  }

  /** The format string of line 54, fed red, green, blue: `c[2], c[1], c[0]`. */
  function HexColor(c: Bgr): (s: string)
    ensures IsHexColor(s)
  {
    "#" + Hex2(c.r) + Hex2(c.g) + Hex2(c.b)
  }

  function HexByte(hi: char, lo: char): byte
    requires IsLowerHexDigit(hi) && IsLowerHexDigit(lo)
  {
    (16 * HexValue(hi) + HexValue(lo)) as byte
  }

  /** Reads `#rrggbb` back into the centre it was written from. */
  function DecodeHexColor(s: string): Option<Bgr>
  {
    if IsHexColor(s) then Some(Bgr(HexByte(s[5], s[6]), HexByte(s[3], s[4]), HexByte(s[1], s[2])))
    else None
  }

  /** Encoding then decoding gives the centre back: the first pair of digits
      is red (`c[2]`), the second green, the third blue (`c[0]`). */
  lemma HexColorRoundTrip(c: Bgr)
    ensures DecodeHexColor(HexColor(c)) == Some(c)
  {
    var s := HexColor(c);
    assert s[1..3] == Hex2(c.r) && s[3..5] == Hex2(c.g) && s[5..7] == Hex2(c.b);
  }

  /** Every well-formed lowercase `#rrggbb` string is the encoding of exactly one centre. */
  lemma HexColorOnto(s: string)
    requires IsHexColor(s)
    ensures DecodeHexColor(s).Some? && HexColor(DecodeHexColor(s).value) == s
  {
    Hex2OfDigits(s[1], s[2]);
    Hex2OfDigits(s[3], s[4]);
    Hex2OfDigits(s[5], s[6]);
    assert s == "#" + [s[1], s[2]] + [s[3], s[4]] + [s[5], s[6]];
  }

  lemma Hex2OfDigits(hi: char, lo: char)
    requires IsLowerHexDigit(hi) && IsLowerHexDigit(lo)
    ensures Hex2(HexByte(hi, lo)) == [hi, lo]
  {
    var v := HexByte(hi, lo) as int;
    assert v / 16 == HexValue(hi) && v % 16 == HexValue(lo);
  }

  /** Different centres get different strings. */
  lemma HexColorInjective(c: Bgr, e: Bgr)
    ensures HexColor(c) == HexColor(e) ==> c == e
  {
    HexColorRoundTrip(c);
    HexColorRoundTrip(e);
  }

  // ---------------------------------------------------------------------
  // extract_dominant_colors (lines 18-60)

  /** `num_colors`' default: the number of clusters asked of k-means. */
  const DefaultColorCount: nat := 5

  /** How far the colour pipeline got: `imdecode` gave `None` (lines 27-30),
      something raised (lines 58-60), or k-means produced its centres. */
  datatype ColorAnalysis = NotDecoded | Raised | Clustered(centers: seq<Bgr>)

  /** One `#rrggbb` string per centre, in centre order; the empty list on
      either error path. */
  function DominantColors(a: ColorAnalysis): (r: seq<string>)
    ensures a.Clustered? ==> |r| == |a.centers|
    ensures a.Clustered? ==> forall i :: 0 <= i < |r| ==> IsHexColor(r[i]) && DecodeHexColor(r[i]) == Some(a.centers[i])
    ensures !a.Clustered? ==> r == []
  {
    match a
    case Clustered(centers) =>
      var r := seq(|centers|, i requires 0 <= i < |centers| => HexColor(centers[i]));
      assert forall i :: 0 <= i < |r| ==> DecodeHexColor(r[i]) == Some(centers[i]) by {
        forall i | 0 <= i < |r| { HexColorRoundTrip(centers[i]); }
      }
      r
    case _ => []
  }

  // ---------------------------------------------------------------------
  // extract_basic_font_characteristics (lines 62-106)

  /** `str.isspace` for one character: the characters Python's `strip` removes. */
  predicate IsSpace(c: char) {
    || c == ' ' || '\t' <= c <= '\r' || '\U{1c}' <= c <= '\U{1f}'
    || c == '\U{85}' || c == '\U{a0}' || c == '\U{1680}'
    || '\U{2000}' <= c <= '\U{200a}' || c == '\U{2028}' || c == '\U{2029}'
    || c == '\U{202f}' || c == '\U{205f}' || c == '\U{3000}'
  }

  function TrimStart(s: string): (r: string)
    ensures |r| <= |s| && r == s[|s| - |r|..]
    ensures r == [] || !IsSpace(r[0])
    ensures forall j :: 0 <= j < |s| - |r| ==> IsSpace(s[j])
  {
    if |s| > 0 && IsSpace(s[0]) then TrimStart(s[1..]) else s
  }

  function TrimEnd(s: string): (r: string)
    ensures |r| <= |s| && r == s[..|r|]
    ensures r == [] || !IsSpace(r[|r| - 1])
    ensures forall j :: |r| <= j < |s| ==> IsSpace(s[j])
  {
    if |s| > 0 && IsSpace(s[|s| - 1]) then TrimEnd(s[..|s| - 1]) else s
  }

  /** `str.strip()`: a slice of `s` that neither starts nor ends with white space. */
  function Strip(s: string): (r: string)
    ensures r == [] || (!IsSpace(r[0]) && !IsSpace(r[|r| - 1]))
  {
    TrimEnd(TrimStart(s))
  }

  /** What `strip` leaves is the slice of the word that remains once white
      space, and only white space, is cut from both ends. */
  lemma StripSlice(s: string)
    ensures exists k :: CutsSpaceAround(s, k, Strip(s))
  {
    SliceCutsSpace(s, TrimStart(s), Strip(s));
  }

  /** A slice taken by cutting white space off the front and then off the
      back is what is left once white space is cut from both ends. */
  lemma SliceCutsSpace(s: string, t: string, r: string)
    requires |t| <= |s| && t == s[|s| - |t|..] && forall j :: 0 <= j < |s| - |t| ==> IsSpace(s[j])
    requires |r| <= |t| && r == t[..|r|] && forall j :: |r| <= j < |t| ==> IsSpace(t[j])
    ensures CutsSpaceAround(s, |s| - |t|, r)
  {
    var k := |s| - |t|;
    forall j | k + |r| <= j < |s|
      ensures IsSpace(s[j])
    {
      assert s[j] == t[j - k];
    }
  }

  /** `r` is the slice of `s` from `k`, and everything outside it is white space. */
  predicate CutsSpaceAround(s: string, k: nat, r: string) {
    && k + |r| <= |s| && r == s[k..k + |r|]
    && (forall j :: 0 <= j < k ==> IsSpace(s[j]))
    && (forall j :: k + |r| <= j < |s| ==> IsSpace(s[j]))
  }

  lemma {:induction false} TrimStartEmpty(s: string)
    ensures TrimStart(s) == [] <==> forall i :: 0 <= i < |s| ==> IsSpace(s[i])
  {
    if |s| > 0 && IsSpace(s[0]) {
      TrimStartEmpty(s[1..]);
      assert forall i :: 1 <= i < |s| ==> s[i] == s[1..][i - 1];
    }
  }

  /** A string strips to nothing exactly when it is all white space. */
  lemma StripEmpty(s: string)
    ensures Strip(s) == [] <==> forall i :: 0 <= i < |s| ==> IsSpace(s[i])
  {
    TrimStartEmpty(s);
    var t := TrimStart(s);
    if t != [] {
      assert TrimEnd(t) != [] by {
        assert !IsSpace(t[0]);
        TrimEndKeepsFirst(t);
      }
    }
  }

  lemma {:induction false} TrimEndKeepsFirst(s: string)
    requires |s| > 0 && !IsSpace(s[0])
    ensures |TrimEnd(s)| > 0
  {
    if IsSpace(s[|s| - 1]) {
      assert |s| > 1;
      TrimEndKeepsFirst(s[..|s| - 1]);
    }
  }

  /** One entry of Tesseract's `conf` column: falsy (empty, counted as 0),
      an integer, or a value `int()` refuses. */
  datatype Conf = Blank | Numeric(value: int) | Malformed

  /** What the OCR pipeline got to: the image could not be opened, Tesseract
      is not installed, or its word table (`text` and `conf` columns). */
  datatype OcrOutcome = ImageUnreadable | TesseractMissing | WordTable(text: seq<string>, conf: seq<Conf>)

  datatype ScanResult = Found | NotFound | Failed

  /** Entry `i`'s confidence can be read: the column has it and `int()` accepts it. */
  predicate Readable(conf: seq<Conf>, i: nat) {
    i < |conf| && !conf[i].Malformed?
  }

  function ConfValue(c: Conf): int
    requires !c.Malformed?
  {
    if c.Blank? then 0 else c.value
  }

  /** Entry `i` is confident (above 60) non-blank text. */
  predicate Qualifies(text: seq<string>, conf: seq<Conf>, i: nat)
    requires i < |text|
  {
    Readable(conf, i) && ConfValue(conf[i]) > 60 && Strip(text[i]) != []
  }

  /** The scan gets past the first `i` entries: each is readable and none qualifies. */
  predicate PassesFirst(text: seq<string>, conf: seq<Conf>, i: nat)
    requires i <= |text|
  {
    forall j :: 0 <= j < i ==> Readable(conf, j) && !Qualifies(text, conf, j)
  }

  /** The scan stops at a qualifying entry. */
  predicate FindsText(text: seq<string>, conf: seq<Conf>) {
    exists i :: 0 <= i < |text| && PassesFirst(text, conf, i) && Qualifies(text, conf, i)
  }

  /** The scan reaches an entry whose confidence raises (missing or not an integer). */
  predicate ScanRaises(text: seq<string>, conf: seq<Conf>) {
    exists i :: 0 <= i < |text| && PassesFirst(text, conf, i) && !Readable(conf, i)
  }

  /** The `has_text` loop (lines 84-91) with its early `break`, and the
      exceptions it can raise while reading `conf`. */
  method ScanForText(text: seq<string>, conf: seq<Conf>) returns (r: ScanResult)
    ensures r == Found <==> FindsText(text, conf)
    ensures r == Failed <==> ScanRaises(text, conf)
    ensures r == NotFound <==> PassesFirst(text, conf, |text|)
  {
    var i := 0;
    while i < |text|
      invariant 0 <= i <= |text|
      invariant PassesFirst(text, conf, i)
    {
      var stripped := Strip(text[i]);
      if i >= |conf| || conf[i].Malformed? {
        OnlyStop(text, conf, i);
        return Failed;
      }
      var c := ConfValue(conf[i]);
      if c > 60 && stripped != [] {
        OnlyStop(text, conf, i);
        return Found;
      }
      i := i + 1;
    }
    r := NotFound;
  }

  /** The scan stops at most once: an entry it stops at is the only one. */
  lemma OnlyStop(text: seq<string>, conf: seq<Conf>, i: nat)
    requires i < |text| && PassesFirst(text, conf, i)
    requires !Readable(conf, i) || Qualifies(text, conf, i)
    ensures FindsText(text, conf) <==> Qualifies(text, conf, i)
    ensures ScanRaises(text, conf) <==> !Readable(conf, i)
    ensures !PassesFirst(text, conf, |text|)
  {
    forall k | 0 <= k < |text| && PassesFirst(text, conf, k) && (!Readable(conf, k) || Qualifies(text, conf, k))
      ensures k == i
    {
    }
  }

  /** The plain reading of `has_text`: when every confidence can be read,
      the scan finds text exactly when some entry has non-blank stripped
      text with a confidence above 60. */
  lemma FindsTextIff(text: seq<string>, conf: seq<Conf>)
    requires forall i :: 0 <= i < |text| ==> Readable(conf, i)
    ensures !ScanRaises(text, conf)
    ensures FindsText(text, conf) <==> exists i :: 0 <= i < |text| && Qualifies(text, conf, i)
  {
    if i :| 0 <= i < |text| && Qualifies(text, conf, i) {
      FirstQualifying(text, conf, 0, i);
    }
  }

  /** From a qualifying entry `i` at or after `start`, with the scan past
      `start`, the scan stops at a qualifying entry. */
  lemma {:induction false} FirstQualifying(text: seq<string>, conf: seq<Conf>, start: nat, i: nat)
    requires forall j :: 0 <= j < |text| ==> Readable(conf, j)
    requires start <= i < |text| && Qualifies(text, conf, i)
    requires PassesFirst(text, conf, start)
    ensures FindsText(text, conf)
    decreases i - start
  {
    if Qualifies(text, conf, start) {
      assert PassesFirst(text, conf, start) && Qualifies(text, conf, start);
    } else {
      assert PassesFirst(text, conf, start + 1);
      FirstQualifying(text, conf, start + 1, i);
    }
  }

  const TextDetected: string := "Text detected (style needs further analysis)"
  const NoTextDetected: string := "No prominent text detected"
  const TesseractNotFound: string := "Tesseract OCR not found. Font analysis unavailable."
  const FontAnalysisError: string := "Error during font analysis."

  /** The verdict `extract_basic_font_characteristics` returns for an OCR outcome. */
  predicate FontVerdict(o: OcrOutcome, s: string) {
    && (s == TextDetected <==> o.WordTable? && FindsText(o.text, o.conf))
    && (s == NoTextDetected <==> o.WordTable? && PassesFirst(o.text, o.conf, |o.text|))
    && (s == TesseractNotFound <==> o.TesseractMissing?)
    && (s == FontAnalysisError <==> o.ImageUnreadable? || (o.WordTable? && ScanRaises(o.text, o.conf)))
  }

  /** `extract_basic_font_characteristics` (lines 62-106). */
  method FontCharacteristics(o: OcrOutcome) returns (s: string)
    ensures FontVerdict(o, s)
  {
    match o
    case ImageUnreadable =>
      s := FontAnalysisError;
    case TesseractMissing =>
      s := TesseractNotFound;
    case WordTable(text, conf) =>
      var hasText := ScanForText(text, conf);
      if hasText == Found {
        s := TextDetected;
      } else if hasText == NotFound {
        s := NoTextDetected;
      } else {
        s := FontAnalysisError;
      }
  }

  // ---------------------------------------------------------------------
  // The /extract-styles endpoint (lines 108-125)

  /** The request body as Flask sees it: sent without a JSON content type,
      sent as JSON that does not parse, or a JSON object whose `image` field
      (when present) is the base64 image. */
  datatype JsonBody = NotJson | MalformedJson | JsonObject(fields: map<string, string>)

  datatype StylesResponse =
    /** An error Flask answers itself while reading `request.json`, with its own error page. */
    | FlaskError(status: nat)
    /** The endpoint's own JSON error. */
    | BadRequest(status: nat, error: string)
    | Styles(colors: seq<string>, fontStyle: string)

  const NoImageError: string := "No image data provided in JSON body"
  /** Unsupported Media Type: `request.json` on a body without a JSON content type. */
  const UnsupportedMediaType: nat := 415
  /** Bad Request: `request.json` on JSON that does not parse. */
  const MalformedJsonStatus: nat := 400

  /** A parsed body the endpoint refuses: falsy (the empty object) or without `image`. */
  predicate LacksImage(body: JsonBody)
    requires body.JsonObject?
  {
    body.fields == map[] || "image" !in body.fields
  }

  /** `extract_styles`: the two analyses are run on `body.fields["image"]`;
      `colors` is what k-means with `DefaultColorCount` clusters made of it
      and `ocr` what Tesseract made of it. */
  method ExtractStyles(body: JsonBody, colors: ColorAnalysis, ocr: OcrOutcome) returns (r: StylesResponse)
    requires colors.Clustered? ==> |colors.centers| == DefaultColorCount
    ensures r.FlaskError? <==> !body.JsonObject?
    ensures body.NotJson? ==> r == FlaskError(UnsupportedMediaType)
    ensures body.MalformedJson? ==> r == FlaskError(MalformedJsonStatus)
    ensures r.BadRequest? <==> body.JsonObject? && LacksImage(body)
    ensures r.BadRequest? ==> r == BadRequest(400, NoImageError)
    ensures r.Styles? ==> r.colors == DominantColors(colors) && FontVerdict(ocr, r.fontStyle)
    ensures r.Styles? && colors.Clustered? ==> |r.colors| == 5
    ensures r.Styles? && !colors.Clustered? ==> r.colors == []
  {
    if body.NotJson? {
      return FlaskError(UnsupportedMediaType);
    }
    if body.MalformedJson? {
      return FlaskError(MalformedJsonStatus);
    }
    if LacksImage(body) {
      return BadRequest(400, NoImageError);
    }
    var hexColors := DominantColors(colors);
    var fontStyle := FontCharacteristics(ocr);
    r := Styles(hexColors, fontStyle);
  }
}
