/**
 * `generateBrandPDF` as the sequence of pdfkit calls it makes, one call
 * per pdfkit call, proved to build exactly the pages that
 * `BrandGuidelines.Guidelines` describes.
 */
module GuidelinesBuilder {
  import opened PdfDocument
  import opened BrandGuidelines

  method DrawCover(doc: Doc, d: BrandData)
    requires doc.Valid()
    modifies doc.page
    ensures doc.page.items == old(doc.page.items) + CoverItems(d)
  {
    doc.FillRect(0.0, 0.0, A4Width, 120.0, d.colors.primary);
    doc.TextAt(d.brandName, 50.0, 50.0);
    doc.TextAt(d.tagline, 50.0, 85.0);
    doc.TextAt(VersionLine(d), 50.0, 750.0);
  }

  method DrawContents(doc: Doc)
    requires doc.Valid()
    modifies doc.page
    ensures doc.page.items == old(doc.page.items) + ContentsItems()
  {
    doc.TextAt(TocTitle, 50.0, 50.0);
    doc.MoveDown(1.0);
    var lines := TocLines();
    doc.Text(lines[0]);
    doc.Text(lines[1]);
    doc.Text(lines[2]);
    doc.Text(lines[3]);
    doc.Text(lines[4]);
    doc.Text(lines[5]);
    doc.Text(lines[6]);
  }

  method DrawSectionOpening(doc: Doc, k: nat)
    requires doc.Valid() && k < 7
    modifies doc.page
    ensures doc.page.items == old(doc.page.items) + SectionOpening(k)
  {
    doc.TextAt(SectionHeadings[k], 50.0, 50.0);
    doc.MoveDown(1.0);
  }

  method DrawIntroduction(doc: Doc, d: BrandData)
    requires doc.Valid()
    modifies doc.page
    ensures doc.page.items == old(doc.page.items) + IntroductionItems(d)
  {
    DrawSectionOpening(doc, 0);
    doc.Text(WelcomeText(d.brandName));
    doc.Text(PrinciplesText(d.voiceAttributes));
  }

  /** The `Object.keys(colors).forEach` loop: one square and two labels per swatch. */
  method DrawSwatches(doc: Doc, swatches: seq<Swatch>, top: real)
    requires doc.Valid()
    modifies doc.page
    ensures doc.page.items == old(doc.page.items) + GridItems(swatches, top)
  {
    for i := 0 to |swatches|
      invariant doc.page.items == old(doc.page.items) + GridItems(swatches[..i], top)
    {
      var x, y := SwatchX(i) as real, SwatchY(i, top);
      doc.FillRect(x, y, SquareSize as real, SquareSize as real, swatches[i].value);
      doc.TextAt(Upper(swatches[i].key), x, y + (SquareSize + 10) as real);
      doc.TextAt(swatches[i].value, x, y + (SquareSize + 25) as real);
      assert swatches[..i + 1][..i] == swatches[..i];
    }
    assert swatches[..|swatches|] == swatches;
  }

  method DrawColorApplication(doc: Doc)
    requires doc.Valid()
    modifies doc.page
    ensures doc.page.items == old(doc.page.items) + ColorApplication()
  {
    doc.MoveDown(6.0);
    doc.Text(ColorApplicationTitle);
    doc.MoveDown(1.0);
    doc.Text(PrimaryLabel);
    doc.Text(PrimaryUse);
    doc.Text(SecondaryLabel);
    doc.Text(SecondaryUse);
    doc.Text(AccentLabel);
    doc.Text(AccentUse);
  }

  method DrawBrandColors(doc: Doc, d: BrandData, swatchTop: real)
    requires doc.Valid()
    modifies doc.page
    ensures doc.page.items == old(doc.page.items) + ColorsItems(d, swatchTop)
  {
    DrawSectionOpening(doc, 1);
    doc.Text(PaletteTitle);
    doc.MoveDown(0.5);
    DrawSwatches(doc, PaletteSwatches(d.colors), swatchTop);
    DrawColorApplication(doc);
  }

  method DrawHeadingStyles(doc: Doc)
    requires doc.Valid()
    modifies doc.page
    ensures doc.page.items == old(doc.page.items) + HeadingStyles()
  {
    doc.Text(HeadingStylesTitle);
    doc.MoveDown(1.0);
    doc.Text("Heading 1");
    doc.Text("Heading 2");
    doc.Text("Heading 3");
    doc.MoveDown(2.0);
  }

  method DrawBodyTextSamples(doc: Doc)
    requires doc.Valid()
    modifies doc.page
    ensures doc.page.items == old(doc.page.items) + BodyTextSamples()
  {
    doc.Text(BodyTextTitle);
    doc.MoveDown(1.0);
    doc.Text(NormalBodySample);
    doc.MoveDown(1.0);
    doc.Text(SmallBodySample);
    doc.MoveDown(2.0);
  }

  method DrawFontPairings(doc: Doc)
    requires doc.Valid()
    modifies doc.page
    ensures doc.page.items == old(doc.page.items) + FontPairings()
  {
    doc.Text(PairingsTitle);
    doc.MoveDown(1.0);
    doc.Text(PairingHeading);
    doc.Text(PairingBody);
  }

  method DrawTypography(doc: Doc)
    requires doc.Valid()
    modifies doc.page
    ensures doc.page.items == old(doc.page.items) + TypographyItems()
  {
    DrawSectionOpening(doc, 2);
    DrawHeadingStyles(doc);
    DrawBodyTextSamples(doc);
    DrawFontPairings(doc);
  }

  /** A bullet-list `forEach`: one bullet line per element, in list order. */
  method DrawBullets(doc: Doc, xs: seq<string>, suffix: string)
    requires doc.Valid()
    modifies doc.page
    ensures doc.page.items == old(doc.page.items) + Bullets(xs, suffix)
  {
    for i := 0 to |xs|
      invariant doc.page.items == old(doc.page.items) + Bullets(xs[..i], suffix)
    {
      doc.Text(BulletLine(xs[i], suffix));
      assert Bullets(xs[..i + 1], suffix) == Bullets(xs[..i], suffix) + [TextItem(BulletLine(xs[i], suffix), Flow)];
    }
    assert xs[..|xs|] == xs;
  }

  method DrawBulletBlock(doc: Doc, title: string, xs: seq<string>, suffix: string)
    requires doc.Valid()
    modifies doc.page
    ensures doc.page.items == old(doc.page.items) + BulletBlock(title, xs, suffix)
  {
    doc.Text(title);
    doc.MoveDown(1.0);
    DrawBullets(doc, xs, suffix);
  }

  method DrawLogoClearSpace(doc: Doc, d: BrandData)
    requires doc.Valid()
    modifies doc.page
    ensures doc.page.items == old(doc.page.items) + LogoClearSpace(d)
  {
    doc.Text(d.logo.analysis);
    doc.MoveDown(1.0);
    doc.Text(ClearSpaceTitle);
    doc.MoveDown(1.0);
    doc.Text(ClearSpaceText(d.logo.clearspace));
    doc.MoveDown(2.0);
  }

  method DrawLogoUsage(doc: Doc, d: BrandData)
    requires doc.Valid()
    modifies doc.page
    ensures doc.page.items == old(doc.page.items) + LogoItems(d)
  {
    DrawSectionOpening(doc, 3);
    DrawLogoClearSpace(doc, d);
    DrawBulletBlock(doc, CorrectUsageTitle, d.logo.sizes, " version");
    doc.MoveDown(2.0);
    DrawBulletBlock(doc, IncorrectUsageTitle, d.logo.incorrectUsage, "");
  }

  method DrawImagery(doc: Doc, d: BrandData)
    requires doc.Valid()
    modifies doc.page
    ensures doc.page.items == old(doc.page.items) + ImageryItems(d)
  {
    DrawSectionOpening(doc, 4);
    doc.Text("Style");
    doc.MoveDown(1.0);
    doc.Text(d.imageryStyle);
    doc.MoveDown(1.0);
    doc.Text("Composition");
    doc.MoveDown(1.0);
    doc.Text(d.imageryComposition);
  }

  method DrawBrandVoice(doc: Doc, d: BrandData)
    requires doc.Valid()
    modifies doc.page
    ensures doc.page.items == old(doc.page.items) + VoiceItems(d)
  {
    DrawSectionOpening(doc, 5);
    doc.Text("Tone");
    doc.MoveDown(1.0);
    doc.Text(d.voiceTone);
    doc.MoveDown(1.0);
    DrawBulletBlock(doc, KeyAttributesTitle, d.voiceAttributes, "");
  }

  method DrawContact(doc: Doc, d: BrandData)
    requires doc.Valid()
    modifies doc.page
    ensures doc.page.items == old(doc.page.items) + ContactItems(d)
  {
    DrawSectionOpening(doc, 6);
    doc.Text(BrandTeamTitle);
    doc.MoveDown(1.0);
    doc.Text(ContactIntro);
    doc.MoveDown(1.0);
    doc.Text("Email: " + d.email);
    doc.Text("Phone: " + d.phone);
  }

  /** The page-number pass: `N` is read once, then each buffered page in
      turn is made current and gets the brand line and "Page i+1 of N". */
  method StampPageNumbers(doc: Doc, brandName: string)
    requires doc.Valid()
    modifies doc, doc.pages
    ensures doc.Valid() && doc.pages == old(doc.pages)
    ensures doc.Contents() == Stamped(old(doc.Contents()), brandName)
  {
    var count := doc.PageCount();
    for i := 0 to count
      invariant doc.Valid() && doc.pages == old(doc.pages)
      invariant forall j :: 0 <= j < i ==> doc.pages[j].items == old(doc.pages[j].items) + FooterItems(brandName, j, count)
      invariant forall j :: i <= j < count ==> doc.pages[j].items == old(doc.pages[j].items)
    {
      StampPage(doc, brandName, i, count);
    }
  }

  /** One turn of the page-number pass: page `i` gets its footer. */
  method StampPage(doc: Doc, brandName: string, i: nat, count: nat)
    requires doc.Valid() && i < |doc.pages|
    modifies doc, doc.pages[i]
    ensures doc.Valid() && doc.pages == old(doc.pages) && doc.Repr == old(doc.Repr)
    ensures doc.current == i && doc.page == doc.pages[i]
    ensures doc.pages[i].items == old(doc.pages[i].items) + FooterItems(brandName, i, count)
  {
    doc.SwitchToPage(i);
    doc.TextAt(BrandLine(brandName), 50.0, 800.0);
    doc.TextAt(PageLabel(i + 1, count), 500.0, 800.0);
  }

  /** `doc.addPage()` followed by the table of contents: page 1 of the body joins
      the 1 before it. */
  method AddContentsPage(doc: Doc, d: BrandData, swatchTop: real)
    requires doc.Valid() && doc.Contents() == BodyPrefix(1, d, swatchTop)
    modifies doc
    ensures doc.Valid() && fresh(doc.page)
    ensures doc.Repr == old(doc.Repr) + {doc.page}
    ensures doc.Contents() == BodyPrefix(2, d, swatchTop)
  {
    ghost var before := doc.pages;
    doc.AddPage();
    DrawContents(doc);
    assert doc.page.items == ContentsItems();
    assert doc.pages[..|doc.pages| - 1] == before;
    assert doc.Contents() == old(doc.Contents()) + [Page(ContentsItems())];
  }

  /** `doc.addPage()` followed by section 1: page 2 of the body joins
      the 2 before it. */
  method AddIntroductionPage(doc: Doc, d: BrandData, swatchTop: real)
    requires doc.Valid() && doc.Contents() == BodyPrefix(2, d, swatchTop)
    modifies doc
    ensures doc.Valid() && fresh(doc.page)
    ensures doc.Repr == old(doc.Repr) + {doc.page}
    ensures doc.Contents() == BodyPrefix(3, d, swatchTop)
  {
    ghost var before := doc.pages;
    doc.AddPage();
    DrawIntroduction(doc, d);
    assert doc.page.items == IntroductionItems(d);
    assert doc.pages[..|doc.pages| - 1] == before;
    assert doc.Contents() == old(doc.Contents()) + [Page(IntroductionItems(d))];
  }

  /** `doc.addPage()` followed by section 2: page 3 of the body joins
      the 3 before it. */
  method AddBrandColorsPage(doc: Doc, d: BrandData, swatchTop: real)
    requires doc.Valid() && doc.Contents() == BodyPrefix(3, d, swatchTop)
    modifies doc
    ensures doc.Valid() && fresh(doc.page)
    ensures doc.Repr == old(doc.Repr) + {doc.page}
    ensures doc.Contents() == BodyPrefix(4, d, swatchTop)
  {
    ghost var before := doc.pages;
    doc.AddPage();
    DrawBrandColors(doc, d, swatchTop);
    assert doc.page.items == ColorsItems(d, swatchTop);
    assert doc.pages[..|doc.pages| - 1] == before;
    assert doc.Contents() == old(doc.Contents()) + [Page(ColorsItems(d, swatchTop))];
  }

  /** `doc.addPage()` followed by section 3: page 4 of the body joins
      the 4 before it. */
  method AddTypographyPage(doc: Doc, d: BrandData, swatchTop: real)
    requires doc.Valid() && doc.Contents() == BodyPrefix(4, d, swatchTop)
    modifies doc
    ensures doc.Valid() && fresh(doc.page)
    ensures doc.Repr == old(doc.Repr) + {doc.page}
    ensures doc.Contents() == BodyPrefix(5, d, swatchTop)
  {
    ghost var before := doc.pages;
    doc.AddPage();
    DrawTypography(doc);
    assert doc.page.items == TypographyItems();
    assert doc.pages[..|doc.pages| - 1] == before;
    assert doc.Contents() == old(doc.Contents()) + [Page(TypographyItems())];
  }

  /** `doc.addPage()` followed by section 4: page 5 of the body joins
      the 5 before it. */
  method AddLogoUsagePage(doc: Doc, d: BrandData, swatchTop: real)
    requires doc.Valid() && doc.Contents() == BodyPrefix(5, d, swatchTop)
    modifies doc
    ensures doc.Valid() && fresh(doc.page)
    ensures doc.Repr == old(doc.Repr) + {doc.page}
    ensures doc.Contents() == BodyPrefix(6, d, swatchTop)
  {
    ghost var before := doc.pages;
    doc.AddPage();
    DrawLogoUsage(doc, d);
    assert doc.page.items == LogoItems(d);
    assert doc.pages[..|doc.pages| - 1] == before;
    assert doc.Contents() == old(doc.Contents()) + [Page(LogoItems(d))];
  }

  /** `doc.addPage()` followed by section 5: page 6 of the body joins
      the 6 before it. */
  method AddImageryPage(doc: Doc, d: BrandData, swatchTop: real)
    requires doc.Valid() && doc.Contents() == BodyPrefix(6, d, swatchTop)
    modifies doc
    ensures doc.Valid() && fresh(doc.page)
    ensures doc.Repr == old(doc.Repr) + {doc.page}
    ensures doc.Contents() == BodyPrefix(7, d, swatchTop)
  {
    ghost var before := doc.pages;
    doc.AddPage();
    DrawImagery(doc, d);
    assert doc.page.items == ImageryItems(d);
    assert doc.pages[..|doc.pages| - 1] == before;
    assert doc.Contents() == old(doc.Contents()) + [Page(ImageryItems(d))];
  }

  /** `doc.addPage()` followed by section 6: page 7 of the body joins
      the 7 before it. */
  method AddBrandVoicePage(doc: Doc, d: BrandData, swatchTop: real)
    requires doc.Valid() && doc.Contents() == BodyPrefix(7, d, swatchTop)
    modifies doc
    ensures doc.Valid() && fresh(doc.page)
    ensures doc.Repr == old(doc.Repr) + {doc.page}
    ensures doc.Contents() == BodyPrefix(8, d, swatchTop)
  {
    ghost var before := doc.pages;
    doc.AddPage();
    DrawBrandVoice(doc, d);
    assert doc.page.items == VoiceItems(d);
    assert doc.pages[..|doc.pages| - 1] == before;
    assert doc.Contents() == old(doc.Contents()) + [Page(VoiceItems(d))];
  }

  /** `doc.addPage()` followed by section 7: page 8 of the body joins
      the 8 before it. */
  method AddContactPage(doc: Doc, d: BrandData, swatchTop: real)
    requires doc.Valid() && doc.Contents() == BodyPrefix(8, d, swatchTop)
    modifies doc
    ensures doc.Valid() && fresh(doc.page)
    ensures doc.Repr == old(doc.Repr) + {doc.page}
    ensures doc.Contents() == BodyPages(d, swatchTop)
  {
    ghost var before := doc.pages;
    doc.AddPage();
    DrawContact(doc, d);
    assert doc.page.items == ContactItems(d);
    assert doc.pages[..|doc.pages| - 1] == before;
    assert doc.Contents() == old(doc.Contents()) + [Page(ContactItems(d))];
  }

  /** `new PDFDocument()` and the cover page (lines 56-85). */
  method StartDocument(d: BrandData, swatchTop: real) returns (doc: Doc)
    ensures doc.Valid() && fresh(doc.Repr)
    ensures doc.Contents() == BodyPrefix(1, d, swatchTop)
  {
    doc := new Doc();
    DrawCover(doc, d);
    assert doc.page.items == CoverItems(d);
  }

  /** The pages of sections 1 and 2 with the table of contents before them. */
  method AddOpeningSections(doc: Doc, d: BrandData, swatchTop: real)
    requires doc.Valid() && doc.Contents() == BodyPrefix(1, d, swatchTop)
    modifies doc
    ensures doc.Valid() && fresh(doc.Repr - old(doc.Repr))
    ensures doc.Contents() == BodyPrefix(4, d, swatchTop)
  {
    AddContentsPage(doc, d, swatchTop);
    assert fresh(doc.Repr - old(doc.Repr));
    AddIntroductionPage(doc, d, swatchTop);
    assert fresh(doc.Repr - old(doc.Repr));
    AddBrandColorsPage(doc, d, swatchTop);
  }

  /** The pages of sections 3 to 5. */
  method AddMiddleSections(doc: Doc, d: BrandData, swatchTop: real)
    requires doc.Valid() && doc.Contents() == BodyPrefix(4, d, swatchTop)
    modifies doc
    ensures doc.Valid() && fresh(doc.Repr - old(doc.Repr))
    ensures doc.Contents() == BodyPrefix(7, d, swatchTop)
  {
    AddTypographyPage(doc, d, swatchTop);
    assert fresh(doc.Repr - old(doc.Repr));
    AddLogoUsagePage(doc, d, swatchTop);
    assert fresh(doc.Repr - old(doc.Repr));
    AddImageryPage(doc, d, swatchTop);
  }

  /** The pages of sections 6 and 7. */
  method AddClosingSections(doc: Doc, d: BrandData, swatchTop: real)
    requires doc.Valid() && doc.Contents() == BodyPrefix(7, d, swatchTop)
    modifies doc
    ensures doc.Valid() && fresh(doc.Repr - old(doc.Repr))
    ensures doc.Contents() == BodyPages(d, swatchTop)
  {
    AddBrandVoicePage(doc, d, swatchTop);
    assert fresh(doc.Repr - old(doc.Repr));
    AddContactPage(doc, d, swatchTop);
  }

  /** The cover and the eight `addPage` calls with their content. */
  method DrawBody(d: BrandData, swatchTop: real) returns (doc: Doc)
    ensures doc.Valid() && fresh(doc.Repr)
    ensures doc.Contents() == BodyPages(d, swatchTop)
  {
    doc := StartDocument(d, swatchTop);
    AddOpeningSections(doc, d, swatchTop);
    assert fresh(doc.Repr);
    AddMiddleSections(doc, d, swatchTop);
    assert fresh(doc.Repr);
    AddClosingSections(doc, d, swatchTop);
  }

  /** `generateBrandPDF` up to `doc.end()`; `swatchTop` is `doc.y` when the
      swatch grid starts (line 139), which pdfkit's text layout decides. */
  method GenerateBrandPdf(d: BrandData, swatchTop: real) returns (doc: Doc)
    ensures doc.Valid()
    ensures doc.Contents() == Guidelines(d, swatchTop)
  {
    doc := DrawBody(d, swatchTop);
    StampPageNumbers(doc, d.brandName);
  }
}
