/**
 * The brand-kit HTTP service (brand-kit-generator/server.js): the upload
 * rules multer is configured with, the `/api/generate-brand-kit` handler
 * up to the point where it hands `brandData` and the output path to the
 * generator, and `cleanupFiles`.
 *
 * Multer and Express are not modelled; what they decide is: which uploads
 * are accepted, and which error status a rejected upload gets. The
 * filesystem is a set of existing paths, and the clock is the timestamp
 * `now`.
 */
module BrandKitServer {
  import opened Wrappers
  import Decimal
  import BrandGuidelines

  // ---------------------------------------------------------------------
  // Upload rules (lines 16-29, 36, 103-115)

  const MaxFileSize: nat := 10 * 1024 * 1024
  const MaxFiles: nat := 10
  const ImagePrefix: string := "image/"

  /** `file.mimetype.startsWith('image/')`. */
  function FileFilter(mimetype: string): (accept: bool)
    ensures accept <==> exists rest :: mimetype == ImagePrefix + rest
  {
    if |mimetype| >= |ImagePrefix| && mimetype[..|ImagePrefix|] == ImagePrefix then
      assert mimetype == ImagePrefix + mimetype[|ImagePrefix|..];
      true
    else
      assert forall rest :: (ImagePrefix + rest)[..|ImagePrefix|] == ImagePrefix;
      false
  }

  /** The one field `upload.array` takes files from (line 36). */
  const UploadField: string := "images"

  /** One file of the multipart request, in arrival order, with the form
      field it was sent under. */
  datatype Upload = Upload(fieldname: string, mimetype: string, size: nat, path: string)

  /** Why multer stops a request: more than `MaxFiles` files, a file under
      another field than `UploadField`, a file over `MaxFileSize` bytes (all
      three `MulterError`s), or a file the filter refuses. */
  datatype UploadError = TooManyFiles | UnexpectedField | FileTooLarge | NotAnImage

  /** A file multer lets through: sent as `images`, an image, and small enough. */
  predicate Acceptable(f: Upload) {
    f.fieldname == UploadField && FileFilter(f.mimetype) && f.size <= MaxFileSize
  }

  /** Multer's verdict on the files from index `i` on: a file is counted when
      it starts, its field is checked and the filter asked next, and it is
      measured while it streams in. */
  function CheckUploadsFrom(files: seq<Upload>, i: nat): (r: Option<UploadError>)
    requires i <= |files|
    ensures r == Some(TooManyFiles) ==> |files| > MaxFiles
    decreases |files| - i
  {
    if i == |files| then None
    else if i >= MaxFiles then Some(TooManyFiles)
    else if files[i].fieldname != UploadField then Some(UnexpectedField)
    else if !FileFilter(files[i].mimetype) then Some(NotAnImage)
    else if files[i].size > MaxFileSize then Some(FileTooLarge)
    else CheckUploadsFrom(files, i + 1)
  }

  /** Every file from index `i` on is acceptable. */
  predicate FilesAcceptableFrom(files: seq<Upload>, i: nat) {
    forall j :: i <= j < |files| ==> Acceptable(files[j])
  }

  lemma {:induction false} CheckUploadsFromAccepts(files: seq<Upload>, i: nat)
    requires i <= |files|
    ensures CheckUploadsFrom(files, i) == None <==> (i == |files| || |files| <= MaxFiles) && FilesAcceptableFrom(files, i)
    decreases |files| - i
  {
    if i < |files| && i < MaxFiles && Acceptable(files[i]) {
      CheckUploadsFromAccepts(files, i + 1);
    }
  }

  /** The upload check on a whole request. */
  function CheckUploads(files: seq<Upload>): (r: Option<UploadError>)
    ensures r == None <==> |files| <= MaxFiles && FilesAcceptableFrom(files, 0)
    ensures r == Some(TooManyFiles) ==> |files| > MaxFiles
  {
    CheckUploadsFromAccepts(files, 0);
    CheckUploadsFrom(files, 0)
  }

  /** The error-handling middleware's status: a `MulterError` is a 400,
      anything else a 500. */
  function UploadErrorStatus(e: UploadError): nat
  {
    if e == NotAnImage then 500 else 400
  }

  /** Multer's own message for each of its errors. */
  const FileCountMessage: string := "Too many files"
  const UnexpectedFieldMessage: string := "Unexpected field"
  const FileSizeMessage: string := "File too large"
  const GenericError: string := "Something went wrong!"

  /** The JSON error response `{ success: false, error }` with its status. */
  datatype ErrorReply = ErrorReply(status: nat, success: bool, error: string)

  /** The error-handling middleware's reply: a `MulterError` passes its own
      message on; the filter's error is answered with the generic message. */
  function UploadErrorReply(e: UploadError): (r: ErrorReply)
    ensures !r.success && r.status == UploadErrorStatus(e)
    ensures r.error == GenericError <==> r.status == 500
  {
    match e
    case TooManyFiles => ErrorReply(400, false, FileCountMessage)
    case UnexpectedField => ErrorReply(400, false, UnexpectedFieldMessage)
    case FileTooLarge => ErrorReply(400, false, FileSizeMessage)
    case NotAnImage => ErrorReply(500, false, GenericError)
  }

  /** The first file from index `i` on that multer looks at and stops on is
      sent as `images` but is not an image. */
  predicate FirstBreakIsNonImage(files: seq<Upload>, i: nat) {
    exists k :: i <= k < |files| && k < MaxFiles && NonImageAfterAcceptable(files, i, k)
  }

  predicate NonImageAfterAcceptable(files: seq<Upload>, i: nat, k: nat)
    requires k < |files|
  {
    && (forall j :: i <= j < k ==> Acceptable(files[j]))
    && files[k].fieldname == UploadField && !FileFilter(files[k].mimetype)
  }

  lemma {:induction false} RejectionStatusFrom(files: seq<Upload>, i: nat)
    requires i <= |files|
    ensures (CheckUploadsFrom(files, i).Some? && UploadErrorStatus(CheckUploadsFrom(files, i).value) == 500)
      <==> FirstBreakIsNonImage(files, i)
    decreases |files| - i
  {
    if i < |files| && i < MaxFiles && Acceptable(files[i]) {
      RejectionStatusFrom(files, i + 1);
      if FirstBreakIsNonImage(files, i) {
        var k :| i <= k < |files| && k < MaxFiles && NonImageAfterAcceptable(files, i, k);
        assert k != i;
        assert NonImageAfterAcceptable(files, i + 1, k);
      }
      if FirstBreakIsNonImage(files, i + 1) {
        var k :| i + 1 <= k < |files| && k < MaxFiles && NonImageAfterAcceptable(files, i + 1, k);
        assert NonImageAfterAcceptable(files, i, k);
      }
    } else if i < |files| && i < MaxFiles && files[i].fieldname == UploadField && !FileFilter(files[i].mimetype) {
      assert NonImageAfterAcceptable(files, i, i);
    }
  }

  /** A rejected upload is answered with 500 exactly when the first file
      that breaks a rule breaks the image filter; every limit and field
      error answers 400. */
  lemma RejectionStatus(files: seq<Upload>)
    ensures (CheckUploads(files).Some? && UploadErrorStatus(CheckUploads(files).value) == 500)
      <==> FirstBreakIsNonImage(files, 0)
  {
    RejectionStatusFrom(files, 0);
  }

  // ---------------------------------------------------------------------
  // brandData (lines 45-65)

  /** The text fields of `req.body`; a field the form did not send is `None`. */
  datatype Form = Form(
    brandName: Option<string>,
    tagline: Option<string>,
    primaryColor: Option<string>,
    secondaryColor: Option<string>)

  /** The `brandData` object the handler builds (the date is left out). */
  datatype KitData = KitData(
    brandName: string,
    tagline: string,
    colors: BrandGuidelines.Palette,
    headingFont: string,
    bodyFont: string)

  /** JavaScript's `v || fallback` on a form field: a missing field and the
      empty string are both falsy. */
  function Or(v: Option<string>, fallback: string): string
  {
    if v.Some? && v.value != "" then v.value else fallback
  }

  const DefaultBrandName: string := "Our Brand"
  const DefaultTagline: string := "Innovating tomorrow"
  const DefaultPrimary: string := "#2A5CAA"
  const DefaultSecondary: string := "#F4B223"
  const FixedAccent: string := "#E74C3C"
  const FixedDark: string := "#2C3E50"
  const FixedLight: string := "#ECF0F1"

  function BrandDataOf(form: Form): (k: KitData)
    ensures k.brandName != "" && k.tagline != "" && k.colors.primary != "" && k.colors.secondary != ""
    ensures form.brandName.Some? && form.brandName.value != "" ==> k.brandName == form.brandName.value
    ensures form.tagline.Some? && form.tagline.value != "" ==> k.tagline == form.tagline.value
    ensures form.primaryColor.Some? && form.primaryColor.value != "" ==> k.colors.primary == form.primaryColor.value
    ensures form.secondaryColor.Some? && form.secondaryColor.value != "" ==> k.colors.secondary == form.secondaryColor.value
  {
    KitData(
      Or(form.brandName, DefaultBrandName),
      Or(form.tagline, DefaultTagline),
      BrandGuidelines.Palette(
        Or(form.primaryColor, DefaultPrimary),
        Or(form.secondaryColor, DefaultSecondary),
        FixedAccent, FixedDark, FixedLight),
      "Helvetica-Bold", "Helvetica")
  }

  /** A form-controlled field ends up holding its default exactly when the
      form leaves it out, sends it empty, or sends the default itself. */
  lemma BrandDataDefaults(form: Form)
    ensures var k := BrandDataOf(form);
      && (k.brandName == DefaultBrandName <==> form.brandName.None? || form.brandName.value in {"", DefaultBrandName})
      && (k.tagline == DefaultTagline <==> form.tagline.None? || form.tagline.value in {"", DefaultTagline})
      && (k.colors.primary == DefaultPrimary <==> form.primaryColor.None? || form.primaryColor.value in {"", DefaultPrimary})
      && (k.colors.secondary == DefaultSecondary <==> form.secondaryColor.None? || form.secondaryColor.value in {"", DefaultSecondary})
  {
  }

  /** Accent, dark, light and the fonts do not depend on the form at all. */
  lemma FixedFields(f: Form, g: Form)
    ensures BrandDataOf(f).colors.accent == BrandDataOf(g).colors.accent == FixedAccent
    ensures BrandDataOf(f).colors.dark == BrandDataOf(g).colors.dark == FixedDark
    ensures BrandDataOf(f).colors.light == BrandDataOf(g).colors.light == FixedLight
    ensures BrandDataOf(f).headingFont == BrandDataOf(g).headingFont
    ensures BrandDataOf(f).bodyFont == BrandDataOf(g).bodyFont
  {
  }

  /** The form of what the handler built: submitting it again changes nothing. */
  function FormOf(k: KitData): Form {
    Form(Some(k.brandName), Some(k.tagline), Some(k.colors.primary), Some(k.colors.secondary))
  }

  /** Defaulting is idempotent: a form that already supplies every field is
      taken as it is, so building `brandData` from a built `brandData` gives it back. */
  lemma BrandDataIdempotent(form: Form)
    ensures BrandDataOf(FormOf(BrandDataOf(form))) == BrandDataOf(form)
  {
  }

  // ---------------------------------------------------------------------
  // Output file name (lines 68-69)

  const PdfPrefix: string := "brand-kit-"
  const PdfSuffix: string := ".pdf"

  /** `` `brand-kit-${Date.now()}.pdf` `` for the timestamp `now`. */
  function PdfFilename(now: nat): (name: string)
    ensures |name| > |PdfPrefix| + |PdfSuffix|
    ensures name[..|PdfPrefix|] == PdfPrefix
    ensures name[|name| - |PdfSuffix|..] == PdfSuffix
  {
    var name := PdfPrefix + Decimal.Show(now) + PdfSuffix;
    assert name[..|PdfPrefix|] == PdfPrefix;
    assert name[|name| - |PdfSuffix|..] == PdfSuffix;
    name
  }

  /** Reads the timestamp back out of a generated file name. */
  function PdfTimestamp(name: string): Option<nat>
  {
    if |name| > |PdfPrefix| + |PdfSuffix| && name[..|PdfPrefix|] == PdfPrefix
       && name[|name| - |PdfSuffix|..] == PdfSuffix
       && Decimal.AllDigits(name[|PdfPrefix|..|name| - |PdfSuffix|])
    then Some(Decimal.Parse(name[|PdfPrefix|..|name| - |PdfSuffix|]))
    else None
  }

  lemma PdfFilenameRoundTrip(now: nat)
    ensures PdfTimestamp(PdfFilename(now)) == Some(now)
  {
    var name := PdfFilename(now);
    assert name[|PdfPrefix|..|name| - |PdfSuffix|] == Decimal.Show(now);
    Decimal.ParseShow(now);
  }

  /** Requests handled at different milliseconds write different files. */
  lemma PdfFilenameInjective(m: nat, n: nat)
    ensures PdfFilename(m) == PdfFilename(n) ==> m == n
  {
    PdfFilenameRoundTrip(m);
    PdfFilenameRoundTrip(n);
  }

  /** `path.join(__dirname, 'generated', pdfFilename)` for a directory path
      `dirname` that needs no normalising. */
  function PdfPath(dirname: string, now: nat): string
  {
    dirname + "/" + "generated" + "/" + PdfFilename(now)
  }

  /** Index of the last `/` in `s`, if there is one. */
  function LastSlash(s: string): (r: Option<nat>)
    ensures r.Some? ==> r.value < |s| && s[r.value] == '/' && forall j :: r.value < j < |s| ==> s[j] != '/'
    ensures r.None? ==> forall j :: 0 <= j < |s| ==> s[j] != '/'
  {
    if s == [] then None
    else if s[|s| - 1] == '/' then Some(|s| - 1)
    else LastSlash(s[..|s| - 1])
  }

  /** `path.dirname` and `path.basename` at once: the parts before and
      after the last separator. */
  function SplitPath(p: string): Option<(string, string)>
  {
    match LastSlash(p)
    case None => None
    case Some(k) => Some((p[..k], p[k + 1..]))
  }

  /** Joining a last segment that holds no separator splits back apart. */
  lemma SplitJoined(a: string, b: string)
    requires forall j :: 0 <= j < |b| ==> b[j] != '/'
    ensures SplitPath(a + "/" + b) == Some((a, b))
  {
    var p := a + "/" + b;
    assert p[|a|] == '/';
    assert forall j :: |a| < j < |p| ==> p[j] == b[j - |a| - 1];
    assert p[..|a|] == a && p[|a| + 1..] == b;
  }

  lemma PdfFilenameNoSlash(now: nat)
    ensures forall j :: 0 <= j < |PdfFilename(now)| ==> PdfFilename(now)[j] != '/'
  {
    var digits := Decimal.Show(now);
    assert PdfFilename(now) == PdfPrefix + digits + PdfSuffix;
    assert forall j :: 0 <= j < |digits| ==> Decimal.IsDigit(digits[j]);
  }

  /** The output path reads back as `dirname`, then `generated`, then a file
      name whose timestamp is the request's. */
  lemma PdfPathRoundTrip(dirname: string, now: nat)
    ensures var outer := SplitPath(PdfPath(dirname, now));
      && outer.Some? && PdfTimestamp(outer.value.1) == Some(now)
      && SplitPath(outer.value.0) == Some((dirname, "generated"))
  {
    PdfFilenameNoSlash(now);
    assert PdfPath(dirname, now) == (dirname + "/" + "generated") + "/" + PdfFilename(now);
    SplitJoined(dirname + "/" + "generated", PdfFilename(now));
    SplitJoined(dirname, "generated");
    PdfFilenameRoundTrip(now);
  }

  // ---------------------------------------------------------------------
  // The handler (lines 36-90)

  const TooFewImages: string := "Please upload at least 3 images"
  const MinImages: nat := 3

  datatype HandlerResult =
    /** The JSON error response `{ success: false, error }`. */
    | Rejected(status: nat, success: bool, error: string)
    /** Everything the handler has when it calls the generator. */
    | Generate(brandData: KitData, pdfFilename: string, pdfPath: string)

  /** The handler up to the generator call. `files` is `req.files`: `None`
      when multer set nothing. */
  function HandleGenerate(files: Option<seq<Upload>>, form: Form, now: nat, dirname: string): (r: HandlerResult)
    ensures r.Rejected? <==> files.None? || |files.value| < MinImages
    ensures r.Rejected? ==> r == Rejected(400, false, TooFewImages)
    ensures r.Generate? ==> (r.brandData == BrandDataOf(form)
      && PdfTimestamp(r.pdfFilename) == Some(now)
      && r.pdfPath == dirname + "/generated/" + r.pdfFilename)
  {
    if files.None? || |files.value| < MinImages then Rejected(400, false, TooFewImages)
    else
      PdfFilenameRoundTrip(now);
      Generate(BrandDataOf(form), PdfFilename(now), PdfPath(dirname, now))
  }

  // ---------------------------------------------------------------------
  // cleanupFiles (lines 92-100)

  function UploadPaths(files: seq<Upload>): (r: seq<string>)
    ensures |r| == |files| && forall i :: 0 <= i < |files| ==> r[i] == files[i].path
  {
    seq(|files|, i requires 0 <= i < |files| => files[i].path)
  }

  /** `if (pdfPath)`: a path that is present and not the empty string. */
  predicate Truthy(p: Option<string>) {
    p.Some? && p.value != ""
  }

  /** The paths `cleanupFiles` tries to delete, in order: every upload
      (none when `files` is `None`), then the PDF when one is given. */
  function CleanupTargets(files: Option<seq<Upload>>, pdfPath: Option<string>): (r: seq<string>)
    ensures |r| == (if files.Some? then |files.value| else 0) + (if Truthy(pdfPath) then 1 else 0)
  {
    (if files.Some? then UploadPaths(files.value) else [])
    + (if Truthy(pdfPath) then [pdfPath.value] else [])
  }

  /** `deleted` is what a run of `unlinkSync` calls over `targets` removes
      from a filesystem holding `existing`: a prefix of the targets, each one
      present when its turn came, and, when the run stopped early, the next
      target was missing (its `unlinkSync` threw and the `catch` ended the
      cleanup). */
  predicate CleanupRun(targets: seq<string>, existing: set<string>, deleted: seq<string>) {
    && |deleted| <= |targets|
    && deleted == targets[..|deleted|]
    && (forall i :: 0 <= i < |deleted| ==> deleted[i] in existing && deleted[i] !in deleted[..i])
    && (|deleted| < |targets| ==> targets[|deleted|] !in existing || targets[|deleted|] in deleted)
  }

  /** `cleanupFiles(files, pdfPath)`; returns the paths it deleted, in order. */
  method CleanupFiles(files: Option<seq<Upload>>, pdfPath: Option<string>, existing: set<string>)
    returns (deleted: seq<string>)
    ensures CleanupRun(CleanupTargets(files, pdfPath), existing, deleted)
  {
    var paths := if files.Some? then UploadPaths(files.value) else [];
    var targets := CleanupTargets(files, pdfPath);
    assert targets[..|paths|] == paths;
    var present := existing;
    deleted := [];
    for i := 0 to |paths|
      invariant deleted == paths[..i]
      invariant present == existing - set j | 0 <= j < i :: paths[j]
      invariant forall j :: 0 <= j < i ==> deleted[j] in existing && deleted[j] !in deleted[..j]
    {
      if paths[i] !in present {
        assert deleted == targets[..i] && targets[i] == paths[i];
        return;
      }
      deleted := deleted + [paths[i]];
      present := present - {paths[i]};
    }
    assert deleted == paths[..|paths|] == paths;
    if Truthy(pdfPath) {
      if pdfPath.value !in present {
        return;
      }
      deleted := deleted + [pdfPath.value];
    }
    assert deleted == targets[..|deleted|];
  }

  /** On a clean filesystem (every target present, no path twice) the
      cleanup deletes every upload and, exactly when a PDF path is passed,
      the PDF; the error path of the handler, which passes none, never
      deletes anything but uploads. */
  lemma CleanupDeletesAll(files: Option<seq<Upload>>, pdfPath: Option<string>, existing: set<string>, deleted: seq<string>)
    requires var t := CleanupTargets(files, pdfPath);
      && (forall i :: 0 <= i < |t| ==> t[i] in existing)
      && (forall i, j :: 0 <= i < j < |t| ==> t[i] != t[j])
    requires CleanupRun(CleanupTargets(files, pdfPath), existing, deleted)
    ensures deleted == CleanupTargets(files, pdfPath)
    ensures Truthy(pdfPath) ==> deleted[|deleted| - 1] == pdfPath.value
    ensures pdfPath.None? ==> forall p :: p in deleted ==> files.Some? && exists f :: f in files.value && f.path == p
  {
    if pdfPath.None? {
      forall p | p in deleted
        ensures files.Some? && exists f :: f in files.value && f.path == p
      {
        var i :| 0 <= i < |deleted| && deleted[i] == p;
        assert files.value[i] in files.value;
      }
    }
  }
}
