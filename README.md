# Brand kit generator — a verified model

The brand kit generator takes a few uploaded brand images and some form
fields and produces a nine-page PDF of brand guidelines. It has three core
parts:

- **The guidelines builder** (`generateBrandPDF`, written against pdfkit).
  It opens a buffered A4 document and draws these pages in order: a cover,
  a table of contents, and seven section pages (introduction, colours,
  typography, logo usage, imagery, brand voice, contact). It then goes back
  over every buffered page and stamps a footer with the brand line and
  "Page i of N".
- **The style extraction service** (`backend/app.py`, Flask). It takes a
  base64 image in a JSON body. It returns the image's dominant colours as
  `#rrggbb` strings and a rough verdict on whether the image contains text.
- **The upload server** (`server.js`, Express and multer). It checks the
  uploaded files, fills in defaults for the brand data, names the PDF, and
  cleans up uploaded and generated files.

The modules:

- `PdfDocument` models the part of pdfkit's buffered document the builder
  uses, as a class. It holds a sequence of page objects and the current
  page. `addPage` and `switchToPage` change which page is current. The text,
  rectangle and move-down calls append a drawing operation to the current
  page.
- `BrandGuidelines` gives, for each page, the drawing operations the builder
  makes on it, as pure functions. It also gives the whole document they make
  up (`Guidelines`).
- `GuidelinesBuilder` gives the imperative builder that draws these pages on
  a `Doc`. It has the swatch loop, the bullet loops and the page-number
  loop. Each method is proved to leave exactly the pages its function
  describes.
- `GuidelinesProperties` proves what the finished document promises:
  - nine pages, each section on its own page;
  - the table of contents reads back as the heading and page number of a
    page that really opens with that heading;
  - the swatch grid is three columns of non-overlapping squares in palette
    order;
  - the bullet lists hold their elements in order;
  - every page carries a footer that reads back as its own page number and
    the page count.
- `StyleExtraction` models the hex formatting of colour centres (with a
  decoder and a round trip), the text scan over OCR results with its early
  exit and error paths, the font verdict, and the `/extract-styles`
  endpoint.
- `BrandKitServer` models the upload limits and the MIME filter, the
  "at least 3 images" check, the brand data defaults, the PDF file name
  (with a round trip of the timestamp), and `cleanupFiles` over a modelled
  set of existing paths.
- `Decimal` and `Wrappers` are shared helpers: decimal digit strings with a
  parse/show round trip, and `Option`.

## Model

| member | source | states |
|---|---|---|
| PdfDocument.Doc.constructor | brand-kit-generator/pdfGenerator.js:56-65 | a new buffered document holds exactly one page, it is empty, and it is current |
| PdfDocument.Doc.PageCount | brand-kit-generator/pdfGenerator.js:343 | the buffered page count equals the number of pages in the document and is positive |
| PdfDocument.Doc.AddPage | brand-kit-generator/pdfGenerator.js:87 | a fresh empty page is appended to the buffer and becomes current; earlier pages are kept |
| PdfDocument.Doc.SwitchToPage | brand-kit-generator/pdfGenerator.js:345 | the buffer is unchanged and page n becomes current |
| PdfDocument.Doc.TextAt | brand-kit-generator/pdfGenerator.js:348-349 | exactly one text at the given point is appended to the current page |
| PdfDocument.Doc.Text | brand-kit-generator/pdfGenerator.js:97-103 | exactly one text at the cursor is appended to the current page |
| PdfDocument.Doc.MoveDown | brand-kit-generator/pdfGenerator.js:94 | exactly one move-down by the given number of lines is appended to the current page |
| PdfDocument.Doc.FillRect | brand-kit-generator/pdfGenerator.js:145-146 | exactly one filled rectangle with the given corner, size and colour is appended to the current page |
| GuidelinesBuilder.DrawCover | brand-kit-generator/pdfGenerator.js:70-85 | the cover gets a full-width 120-point banner in the primary colour, then the brand name at (50,50), the tagline at (50,85), and the version and date at (50,750) |
| GuidelinesBuilder.DrawContents | brand-kit-generator/pdfGenerator.js:90-103 | the contents page gets the title, a blank line and the seven contents lines in section order |
| GuidelinesBuilder.DrawIntroduction | brand-kit-generator/pdfGenerator.js:108-121 | the introduction gets its heading, the welcome text naming the brand, and the principles text joining the voice attributes with ", " |
| GuidelinesBuilder.DrawSwatches | brand-kit-generator/pdfGenerator.js:141-152 | the swatch loop appends, per palette entry and in key order, the square and then the upper-cased key and the value below it |
| GuidelinesBuilder.DrawColorApplication | brand-kit-generator/pdfGenerator.js:154-174 | the colour application block: six lines down, title, blank line, then label and usage text for primary, secondary and accent |
| GuidelinesBuilder.DrawBrandColors | brand-kit-generator/pdfGenerator.js:126-174 | the colours page: heading, palette title, half-line gap, the swatch grid from the given top, then the application block |
| GuidelinesBuilder.DrawTypography | brand-kit-generator/pdfGenerator.js:179-237 | the typography page: heading, heading samples 1-3, body text samples, recommended pairings, with their gaps |
| GuidelinesBuilder.DrawBullets | brand-kit-generator/pdfGenerator.js:263-265 | one bullet line per list element, in list order, each at the cursor |
| GuidelinesBuilder.DrawLogoUsage | brand-kit-generator/pdfGenerator.js:242-274 | the logo page: heading, analysis, clear-space text, the correct-usage bullets with " version", the incorrect-usage bullets |
| GuidelinesBuilder.DrawImagery | brand-kit-generator/pdfGenerator.js:279-297 | the imagery page: heading, style title and text, composition title and text |
| GuidelinesBuilder.DrawBrandVoice | brand-kit-generator/pdfGenerator.js:302-321 | the voice page: heading, tone, and one bullet per attribute |
| GuidelinesBuilder.DrawContact | brand-kit-generator/pdfGenerator.js:326-340 | the contact page: heading, team title, intro, then the email and phone lines |
| GuidelinesBuilder.StampPage | brand-kit-generator/pdfGenerator.js:345-349 | page i becomes current (and stays so) and gets the brand line at (50,800) and "Page i+1 of N" at (500,800); no page is added |
| GuidelinesBuilder.StampPageNumbers | brand-kit-generator/pdfGenerator.js:342-350 | every buffered page keeps its content and gets its own footer after it; the buffer itself is unchanged |
| GuidelinesBuilder.StartDocument | brand-kit-generator/pdfGenerator.js:56-85 | a new document whose only page is the cover |
| GuidelinesBuilder.AddContentsPage | brand-kit-generator/pdfGenerator.js:87-103 | one page is added after the cover and it holds the contents |
| GuidelinesBuilder.AddIntroductionPage | brand-kit-generator/pdfGenerator.js:105-121 | the third page is added and holds the introduction; earlier pages are unchanged |
| GuidelinesBuilder.AddBrandColorsPage | brand-kit-generator/pdfGenerator.js:123-174 | the fourth page is added and holds the colours page; earlier pages are unchanged |
| GuidelinesBuilder.AddTypographyPage | brand-kit-generator/pdfGenerator.js:176-237 | the fifth page is added and holds the typography page; earlier pages are unchanged |
| GuidelinesBuilder.AddLogoUsagePage | brand-kit-generator/pdfGenerator.js:239-274 | the sixth page is added and holds the logo usage page; earlier pages are unchanged |
| GuidelinesBuilder.AddImageryPage | brand-kit-generator/pdfGenerator.js:276-297 | the seventh page is added and holds the imagery page; earlier pages are unchanged |
| GuidelinesBuilder.AddBrandVoicePage | brand-kit-generator/pdfGenerator.js:299-321 | the eighth page is added and holds the brand voice page; earlier pages are unchanged |
| GuidelinesBuilder.AddContactPage | brand-kit-generator/pdfGenerator.js:323-340 | the ninth and last body page is added and the document is then exactly the nine body pages |
| GuidelinesBuilder.AddOpeningSections | brand-kit-generator/pdfGenerator.js:87-174 | after the cover, the contents, introduction and colours pages are added in that order |
| GuidelinesBuilder.AddMiddleSections | brand-kit-generator/pdfGenerator.js:176-297 | the typography, logo usage and imagery pages are added in that order after the first four |
| GuidelinesBuilder.AddClosingSections | brand-kit-generator/pdfGenerator.js:299-340 | the brand voice and contact pages complete the nine body pages |
| GuidelinesBuilder.DrawBody | brand-kit-generator/pdfGenerator.js:56-340 | the document drawn before the footer pass is exactly the nine body pages in order |
| GuidelinesBuilder.GenerateBrandPdf | brand-kit-generator/pdfGenerator.js:55-353 | the finished document is the nine body pages, each stamped with its footer |
| GuidelinesProperties.BodyPrefixAt | brand-kit-generator/pdfGenerator.js:87-340 | the i-th page drawn is the same whatever number of later pages follow it |
| GuidelinesProperties.GuidelinesPage | brand-kit-generator/pdfGenerator.js:342-350 | the finished document has 9 pages and page i is body page i followed by footer "Page i+1 of 9" |
| GuidelinesProperties.SectionOpensItsPage | brand-kit-generator/pdfGenerator.js:107-328 | section k's numbered heading (lines 110, 128, 181, 244, 281, 304, 328) is the first thing on page k+3, at (50,50) |
| GuidelinesProperties.TocLineRoundTrip | brand-kit-generator/pdfGenerator.js:97-103 | a contents line (heading, at least one leader dot, number) reads back as that heading and number |
| GuidelinesProperties.TocLineParses | brand-kit-generator/pdfGenerator.js:97-103 | contents line k reads back as section heading k and page number k+3 |
| GuidelinesProperties.ContentsPointToSections | brand-kit-generator/pdfGenerator.js:97-103 | each contents line names a page of the document, and that page opens with the heading the line names |
| GuidelinesProperties.SwatchColumns | brand-kit-generator/pdfGenerator.js:142 | swatch i lies in one of the columns x = 50, 260, 470, picked by i mod 3 |
| GuidelinesProperties.SwatchRows | brand-kit-generator/pdfGenerator.js:143 | swatch row i/3 starts 90 points below the previous row |
| GuidelinesProperties.SwatchesApart | brand-kit-generator/pdfGenerator.js:142-145 | two different swatches never share a place; squares are at least 210 apart across or 90 apart down, so 60-point squares never overlap |
| GuidelinesProperties.SwatchLabelsBelowSquare | brand-kit-generator/pdfGenerator.js:145-151 | each swatch draws its square, then its key 10 points and its value 25 points below the square's bottom edge, at the square's x |
| GuidelinesProperties.GridItemsAt | brand-kit-generator/pdfGenerator.js:141-152 | the grid has three operations per swatch, and operations 3i to 3i+3 are swatch i's |
| GuidelinesProperties.PaletteGrid | brand-kit-generator/pdfGenerator.js:135-152 | the five palette colours are drawn in key order primary, secondary, accent, dark, light, three in the first row and two in the second |
| GuidelinesProperties.BulletsRoundTrip | brand-kit-generator/pdfGenerator.js:263-274 | every bullet line is the bullet mark, the element and the suffix, and the lines read back as exactly the list, in order, one line per element |
| GuidelinesProperties.BulletText | brand-kit-generator/pdfGenerator.js:264 | a line reads back as an element only when it is the bullet mark, that element and the suffix |
| GuidelinesProperties.JoinSnoc | brand-kit-generator/pdfGenerator.js:119 | joining puts the separator only between elements: one more element adds the separator and that element at the end |
| GuidelinesProperties.SwatchKeyLabels | brand-kit-generator/pdfGenerator.js:150 | the swatch labels are PRIMARY, SECONDARY, ACCENT, DARK and LIGHT |
| BrandGuidelines.Upper | brand-kit-generator/pdfGenerator.js:150 | the label has the key's length; each lower-case ASCII letter becomes its own capital (same place in the alphabet), no lower-case letter is left, and every other character is unchanged |
| GuidelinesProperties.PageLabelRoundTrip | brand-kit-generator/pdfGenerator.js:349 | the label "Page n of N" reads back as (n, N) |
| GuidelinesProperties.PageLabelsDistinct | brand-kit-generator/pdfGenerator.js:349 | different pages get different labels |
| GuidelinesProperties.StampedFooter | brand-kit-generator/pdfGenerator.js:343-350 | stamping keeps each page's content as a prefix, adds no page, and the label on page i reads back as (i+1, page count) |
| GuidelinesProperties.GuidelinesNumbered | brand-kit-generator/pdfGenerator.js:343-350 | the last item on page i of the finished document reads back as "Page i+1 of 9" |
| Decimal.ParseShow | brand-kit-generator/pdfGenerator.js:349 | the decimal form of a number reads back as that number |
| Decimal.ShowInjective | brand-kit-generator/server.js:68 | different numbers have different decimal forms |
| StyleExtraction.Hex2 | backend/app.py:54 | two lower-case hex digits whose value is the byte |
| StyleExtraction.HexColor | backend/app.py:54 | a colour centre is formatted as "#" and six lower-case hex digits, red then green then blue |
| StyleExtraction.HexColorRoundTrip | backend/app.py:52-54 | the formatted colour decodes back to the same centre, with blue, green and red in their places |
| StyleExtraction.HexColorOnto | backend/app.py:54 | every "#" plus six lower-case hex digits is the formatting of exactly the centre it decodes to |
| StyleExtraction.HexColorInjective | backend/app.py:54 | different centres give different hex strings |
| StyleExtraction.DominantColors | backend/app.py:18-60 | one hex string per centre, in centre order, each decoding back to its centre; no colours when decoding fails or an error is raised |
| StyleExtraction.Strip | backend/app.py:86 | the stripped word neither starts nor ends with white space |
| StyleExtraction.StripSlice | backend/app.py:86 | the stripped word is the slice of the word left once white space, and only white space, is cut from both ends |
| StyleExtraction.StripEmpty | backend/app.py:86 | a stripped word is empty exactly when it is all whitespace |
| StyleExtraction.ScanForText | backend/app.py:84-91 | the scan finds text exactly when it reaches an entry with confidence over 60 and non-blank text before any error; it fails exactly when it reaches a malformed confidence or a missing entry first; otherwise it passes every entry |
| StyleExtraction.OnlyStop | backend/app.py:85-91 | the first entry that stops the scan decides the result: found when it qualifies, failed when unreadable |
| StyleExtraction.FindsTextIff | backend/app.py:84-91 | with every confidence readable, the scan cannot fail, and it finds text exactly when some entry qualifies |
| StyleExtraction.FontCharacteristics | backend/app.py:62-106 | the verdict is "Text detected ..." exactly when the scan finds text, "No prominent text detected" when it passes everything, the Tesseract message when Tesseract is missing, and the error message otherwise |
| StyleExtraction.ExtractStyles | backend/app.py:108-125 | Flask's own 415 when the body is not sent as JSON and its 400 when the JSON does not parse; 400 with "No image data provided in JSON body" exactly when the parsed object is empty or has no "image" key; otherwise the dominant colours (five when clustering ran, none on an error) and the font verdict |
| BrandKitServer.FileFilter | brand-kit-generator/server.js:22-28 | a file is accepted exactly when its MIME type starts with "image/" |
| BrandKitServer.CheckUploadsFrom | brand-kit-generator/server.js:18-28 | the checks from file i on report too many files only when there are more than 10 |
| BrandKitServer.CheckUploadsFromAccepts | brand-kit-generator/server.js:18-36 | the checks from file i on pass exactly when the count is within the limit and every remaining file is sent as "images" and is an image of at most 10 MB |
| BrandKitServer.CheckUploads | brand-kit-generator/server.js:18-36 | an upload is accepted exactly when there are at most 10 files, each sent under the field "images" and an image of at most 10 MB; too-many-files is reported only when there are more than 10 |
| BrandKitServer.UploadErrorReply | brand-kit-generator/server.js:103-115 | the reply never reports success, its status is 400 for multer's own errors and 500 otherwise, and only the 500 carries "Something went wrong!" |
| BrandKitServer.RejectionStatus | brand-kit-generator/server.js:22-28 | a rejected upload answers 500 exactly when the first file that breaks a rule, within the first 10, is sent as "images" but is not an image |
| BrandKitServer.BrandDataOf | brand-kit-generator/server.js:46-65 | a truthy form value for brand name, tagline, primary or secondary colour is the value used; whatever the form sends, these four fields are never empty |
| BrandKitServer.BrandDataDefaults | brand-kit-generator/server.js:47-51 | each default is used exactly when the field is missing, empty, or the default itself |
| BrandKitServer.FixedFields | brand-kit-generator/server.js:52-59 | accent, dark, light and both fonts are the same whatever the form says |
| BrandKitServer.BrandDataIdempotent | brand-kit-generator/server.js:46-59 | filling in defaults a second time changes nothing |
| BrandKitServer.PdfFilename | brand-kit-generator/server.js:68 | the file name starts with "brand-kit-", ends with ".pdf", and has something between |
| BrandKitServer.PdfFilenameRoundTrip | brand-kit-generator/server.js:68 | the timestamp reads back from the file name |
| BrandKitServer.PdfFilenameInjective | brand-kit-generator/server.js:68 | different timestamps give different file names |
| BrandKitServer.PdfPathRoundTrip | brand-kit-generator/server.js:69 | the output path splits back into the directory, "generated" and a file name whose timestamp is the request's |
| BrandKitServer.HandleGenerate | brand-kit-generator/server.js:36-69 | 400 with success false and "Please upload at least 3 images" exactly when there are no files or fewer than 3; otherwise it generates with the defaulted brand data, a file name whose timestamp reads back, and its path |
| BrandKitServer.CleanupTargets | brand-kit-generator/server.js:93-96 | the uploaded files' paths, then the PDF path when it is truthy |
| BrandKitServer.CleanupFiles | brand-kit-generator/server.js:93-100 | a prefix of the targets is deleted in order, each present and not repeated; the run stops early only at a missing path, where the error is caught |
| BrandKitServer.CleanupDeletesAll | brand-kit-generator/server.js:93-100 | when every target exists and none repeats, everything is deleted, the PDF last; without a PDF path only upload paths are deleted |

## Left out

- pdfkit's text layout is not modelled: line wrapping, fonts, font sizes,
  fill colours of text, underline, indent, line gaps and the text cursor.
  Text placed at the cursor is recorded as being at the cursor.
- Automatic page continuation is not modelled. pdfkit starts a new page when
  text runs past the bottom margin, and the footer at y = 800 lies below the
  bottom margin of an A4 page with margin 50. Here every text call appends
  to the current page. So in pdfkit each footer call of the stamping pass
  would open a new page instead of landing on the stamped one; the footer
  properties (`StampedFooter`, `GuidelinesNumbered`) hold of the model
  only because continuation is left out.
- `doc.y` where the swatch grid starts (pdfGenerator.js line 139) comes from
  text layout. It is the parameter `swatchTop`.
- The `continued: true` label and the usage text after it (lines 162-174)
  are two separate text operations; their colours are left out.
- The document metadata (author, title, keywords) is left out, and so are
  the output stream, `doc.end()` and the mock-data call at the end of
  pdfGenerator.js (file I/O).
- `typography` sizes and `fonts` in the builder's brand data are only
  styling. The builder's `BrandData` does not carry them.
- The server and the builder are not joined. `server.js` imports
  `generateBrandPDF`, which pdfGenerator.js does not export. The server's
  brand data also lacks the `version`, `logo`, `typography`, `imagery`,
  `brandVoice` and `contact` fields the builder reads. `KitData` and `BrandData` are
  therefore separate types, and `HandleGenerate` stops where generation
  would start. As written, the call at server.js line 71 throws for every
  request with at least 3 valid images, so the real route always answers
  from its catch with a 500 after the cleanup and never reaches the success
  response `HandleGenerate` models.
- Image decoding, resizing and k-means clustering (OpenCV) are inputs
  (`ColorAnalysis`), and the float-to-uint8 conversion of the centres is
  part of that input. OCR (Tesseract) results are input as `OcrOutcome`.
- ExtractStyles: takes as a precondition that clustering ran with 5
  centres, the count the endpoint asks for.
- ExtractStyles: follows Flask 2.3 and later for a body sent without a
  JSON content type, where `request.json` answers 415. Older versions gave
  `None` there (the endpoint's own 400) or a 400 of their own; that choice
  is not a parameter of the model.
- ExtractStyles: JSON bodies that parse but are not an object (an array,
  a string, `null`) are left out, and so are non-string field values; the
  error pages Flask answers with are given by status only.
- Logging (`print`, `console.error`) is left out.
- CheckUploads: multer enforces the limits while it streams. The model
  checks each file in arrival order: count, then field name, then filter,
  then size. Busboy's timing between a file's end and the next file's
  start is not modelled, nor are multer's part, field-count and field-size
  limits, which this configuration leaves at their defaults.
- UploadErrorReply: the three multer messages are multer's own texts for
  `LIMIT_FILE_COUNT`, `LIMIT_UNEXPECTED_FILE` and `LIMIT_FILE_SIZE`; multer
  itself is not part of this model.
- PdfPath: does not model the normalising `path.join` does (a `__dirname`
  of `/`, or one holding `..` or repeated separators); the directory is
  taken to be an absolute path without a trailing separator, as Node gives
  it for any directory but the root.
- The 500 answer from the route's catch (server.js lines 80-89) depends on
  `NODE_ENV` and the thrown message. It is left out.
- `res.download` and its callback are left out (network I/O). So is
  `Date.now()` (the timestamp is a parameter) and the locale date string
  (`dateCreated`).
- The 400 path for fewer than 3 images returns before any cleanup, so the
  uploaded files stay on disk. The model states the response but has no
  disk state outside `CleanupFiles`.
- CleanupFiles: models the file system as a set of existing paths. Deleting
  a missing path is the only error; permission errors are not modelled.
- Upper: upper-cases ASCII letters only; JavaScript's full Unicode case
  mapping is not modelled (the keys it is applied to are ASCII).
- The frontends, the static file serving and the directory creation at
  server start are left out.
