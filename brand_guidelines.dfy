/**
 * The brand-guidelines document builder, `generateBrandPDF`
 * (brand-kit-generator/pdfGenerator.js): a cover page, a table of
 * contents and seven numbered sections, one page each, followed by a
 * second pass over the buffered pages that stamps every page with the
 * brand line and "Page i of N".
 *
 * For every page there is a function giving the drawing operations the
 * builder makes on it, and a method that makes them on a `Doc`, one call
 * per pdfkit call, with the source's `forEach` and `for` loops kept as
 * loops.
 */
module BrandGuidelines {
  import opened PdfDocument
  import Decimal

  // ---------------------------------------------------------------------
  // Input

  /** `brandData.colors`; its keys, in insertion order, are the swatch order. */
  datatype Palette = Palette(primary: string, secondary: string, accent: string, dark: string, light: string)

  datatype LogoGuide = LogoGuide(analysis: string, clearspace: string, sizes: seq<string>, incorrectUsage: seq<string>)

  /** The fields of `brandData` that reach the page content. */
  datatype BrandData = BrandData(
    brandName: string,
    tagline: string,
    version: string,
    dateCreated: string,
    colors: Palette,
    logo: LogoGuide,
    imageryStyle: string,
    imageryComposition: string,
    voiceTone: string,
    voiceAttributes: seq<string>,
    email: string,
    phone: string)

  /** One colour swatch: the palette key and its colour value. */
  datatype Swatch = Swatch(key: string, value: string)

  /** `Object.keys(colors)` with the values, in the object's insertion order. */
  function PaletteSwatches(p: Palette): (r: seq<Swatch>)
    ensures |r| == 5
  {
    [Swatch("primary", p.primary), Swatch("secondary", p.secondary), Swatch("accent", p.accent),
     Swatch("dark", p.dark), Swatch("light", p.light)]
  }

  // ---------------------------------------------------------------------
  // Text helpers

  /** `Array.prototype.join`. */
  function Join(xs: seq<string>, sep: string): string
  {
    if |xs| == 0 then "" else if |xs| == 1 then xs[0] else xs[0] + sep + Join(xs[1..], sep)
  }

  /** `String.prototype.toUpperCase` on ASCII letters (palette keys are ASCII). */
  function Upper(s: string): (r: string)
    ensures |r| == |s|
    ensures forall i :: 0 <= i < |s| ==> !('a' <= r[i] <= 'z')
    ensures forall i :: 0 <= i < |s| && !('a' <= s[i] <= 'z') ==> r[i] == s[i]
    ensures forall i :: 0 <= i < |s| && 'a' <= s[i] <= 'z' ==>
      'A' <= r[i] <= 'Z' && r[i] as int - 'A' as int == s[i] as int - 'a' as int
  {
    seq(|s|, i requires 0 <= i < |s| => if 'a' <= s[i] <= 'z' then (s[i] as int - 32) as char else s[i])
  }

  // ---------------------------------------------------------------------
  // Table of contents and section headings

  /** The seven section headings, in document order. */
  const SectionHeadings: seq<string> := [
    "1. Introduction", "2. Brand Colors", "3. Typography", "4. Logo Usage",
    "5. Imagery Guidelines", "6. Brand Voice", "7. Contact Information"]

  /** Number of leader dots between each heading and its page number in the contents. */
  const TocLeaders: seq<nat> := [26, 24, 26, 26, 18, 24, 16]

  /** Cover and contents come before the sections. */
  const FrontPages: nat := 2

  /** The page numbers the contents gives, 1-based, section by section. */
  const TocPageNumbers: seq<nat> := [3, 4, 5, 6, 7, 8, 9]

  function Dots(n: nat): (r: string)
    ensures |r| == n && forall i :: 0 <= i < n ==> r[i] == '.'
  {
    seq(n, _ => '.')
  }

  /** One line of the table of contents: heading, leader dots, page number. */
  function TocLine(heading: string, leaders: nat, page: nat): string
  {
    heading + Dots(leaders) + Decimal.Show(page)
  }

  function TocLines(): (r: seq<string>)
    ensures |r| == 7
  {
    seq(7, k requires 0 <= k < 7 => TocLine(SectionHeadings[k], TocLeaders[k], TocPageNumbers[k]))
  }

  // ---------------------------------------------------------------------
  // Swatch grid (lines 135-152)

  const SquareSize: int := 60
  const SwatchGap: int := 30
  const SwatchStartX: int := 50
  /** The extra horizontal room each column gets for its labels. */
  const LabelRoom: int := 120
  const GridColumns: int := 3

  /** Left edge of swatch `i`. */
  function SwatchX(i: nat): int
  {
    SwatchStartX + i % GridColumns * (SquareSize + SwatchGap + LabelRoom)
  }

  /** Top edge of swatch `i` when the grid starts at `top` (`doc.y` at line 139). */
  function SwatchY(i: nat, top: real): real
  {
    top + (i / GridColumns * (SquareSize + SwatchGap)) as real
  }

  /** What the loop body draws for swatch `i`: the filled square, the
      uppercased key 10 points below it and the colour value 25 points below it. */
  function SwatchItems(s: Swatch, i: nat, top: real): seq<Item>
  {
    var x, y := SwatchX(i) as real, SwatchY(i, top);
    [RectItem(x, y, SquareSize as real, SquareSize as real, s.value),
     TextItem(Upper(s.key), At(x, y + (SquareSize + 10) as real)),
     TextItem(s.value, At(x, y + (SquareSize + 25) as real))]
  }

  /** The whole grid: the loop body's drawing for each swatch, in key order. */
  function GridItems(ss: seq<Swatch>, top: real): (r: seq<Item>)
  {
    if |ss| == 0 then [] else GridItems(ss[..|ss| - 1], top) + SwatchItems(ss[|ss| - 1], |ss| - 1, top)
  }

  // ---------------------------------------------------------------------
  // Bullet lists (lines 263-274, 319-321)

  /** What every bullet line starts with: a bullet and a space. */
  const BulletMark: string := "\U{2022} "

  function BulletLine(x: string, suffix: string): string
  {
    BulletMark + x + suffix
  }

  function Bullets(xs: seq<string>, suffix: string): (r: seq<Item>)
  {
    seq(|xs|, i requires 0 <= i < |xs| => TextItem(BulletLine(xs[i], suffix), Flow))
  }

  // ---------------------------------------------------------------------
  // The fixed texts of the pages

  const TocTitle: string := "Table of Contents"
  const PaletteTitle: string := "Primary Color Palette"
  const ColorApplicationTitle: string := "Color Application"
  const PrimaryLabel: string := "Primary Color:"
  const PrimaryUse: string := " Use for primary actions and key brand elements"
  const SecondaryLabel: string := "Secondary Color:"
  const SecondaryUse: string := " Use for secondary actions and highlights"
  const AccentLabel: string := "Accent Color:"
  const AccentUse: string := " Use sparingly for alerts and important notices"
  const HeadingStylesTitle: string := "Heading Styles"
  const BodyTextTitle: string := "Body Text"
  const NormalBodySample: string := "This is normal body text. Use for paragraphs and general content."
  const SmallBodySample: string := "This is small body text. Use for captions and secondary information."
  const PairingsTitle: string := "Recommended Pairings"
  const PairingHeading: string := "Heading in Primary Color"
  const PairingBody: string := "Paired with body text in dark gray for optimal readability and visual hierarchy."
  const ClearSpaceTitle: string := "Clear Space Requirements"
  const CorrectUsageTitle: string := "Correct Usage"
  const IncorrectUsageTitle: string := "Incorrect Usage"
  const KeyAttributesTitle: string := "Key Attributes"
  const BrandTeamTitle: string := "Brand Team"
  const ContactIntro: string := "For brand-related inquiries and asset requests, please contact:"

  // Fixed parts of the texts built from the brand data
  const WelcomeHead: string := "Welcome to the "
  const WelcomeTail: string := " Brand Guidelines. This document serves as the foundation for all visual and verbal communications representing our brand."
  const PrinciplesHead: string := "Our brand identity is built on the principles of "
  const PrinciplesTail: string := ". These guidelines ensure consistency across all touchpoints."
  const ClearSpaceHead: string := "Maintain minimum "
  const ClearSpaceTail: string := " around the logo at all times."

  // ---------------------------------------------------------------------
  // Texts built from the brand data (the template literals of the source)

  function VersionLine(d: BrandData): string
  {
    "Version " + d.version + " | " + d.dateCreated
  }

  function WelcomeText(brandName: string): string
  {
    WelcomeHead + brandName + WelcomeTail
  }

  function PrinciplesText(attributes: seq<string>): string
  {
    PrinciplesHead + Join(attributes, ", ") + PrinciplesTail
  }

  function ClearSpaceText(clearspace: string): string
  {
    ClearSpaceHead + clearspace + ClearSpaceTail
  }

  // ---------------------------------------------------------------------
  // Page contents, block by block as the builder draws them

  function CoverItems(d: BrandData): seq<Item>
  {
    [RectItem(0.0, 0.0, A4Width, 120.0, d.colors.primary),
     TextItem(d.brandName, At(50.0, 50.0)),
     TextItem(d.tagline, At(50.0, 85.0)),
     TextItem(VersionLine(d), At(50.0, 750.0))]
  }

  function ContentsItems(): seq<Item>
  {
    var lines := TocLines();
    [TextItem(TocTitle, At(50.0, 50.0)), MoveDownItem(1.0)]
    + seq(7, k requires 0 <= k < 7 => TextItem(lines[k], Flow))
  }

  /** Every section page opens with its heading at (50, 50) and one blank line. */
  function SectionOpening(k: nat): seq<Item>
    requires k < 7
  {
    [TextItem(SectionHeadings[k], At(50.0, 50.0)), MoveDownItem(1.0)]
  }

  function IntroductionBody(d: BrandData): seq<Item>
  {
    [TextItem(WelcomeText(d.brandName), Flow),
     TextItem(PrinciplesText(d.voiceAttributes), Flow)]
  }

  function PaletteIntro(): seq<Item>
  {
    [TextItem(PaletteTitle, Flow), MoveDownItem(0.5)]
  }

  function ColorApplication(): seq<Item>
  {
    [MoveDownItem(6.0),
     TextItem(ColorApplicationTitle, Flow),
     MoveDownItem(1.0),
     TextItem(PrimaryLabel, Flow),
     TextItem(PrimaryUse, Flow),
     TextItem(SecondaryLabel, Flow),
     TextItem(SecondaryUse, Flow),
     TextItem(AccentLabel, Flow),
     TextItem(AccentUse, Flow)]
  }

  function HeadingStyles(): seq<Item>
  {
    [TextItem(HeadingStylesTitle, Flow),
     MoveDownItem(1.0),
     TextItem("Heading 1", Flow),
     TextItem("Heading 2", Flow),
     TextItem("Heading 3", Flow),
     MoveDownItem(2.0)]
  }

  function BodyTextSamples(): seq<Item>
  {
    [TextItem(BodyTextTitle, Flow),
     MoveDownItem(1.0),
     TextItem(NormalBodySample, Flow),
     MoveDownItem(1.0),
     TextItem(SmallBodySample, Flow),
     MoveDownItem(2.0)]
  }

  function FontPairings(): seq<Item>
  {
    [TextItem(PairingsTitle, Flow),
     MoveDownItem(1.0),
     TextItem(PairingHeading, Flow),
     TextItem(PairingBody, Flow)]
  }

  function LogoClearSpace(d: BrandData): seq<Item>
  {
    [TextItem(d.logo.analysis, Flow),
     MoveDownItem(1.0),
     TextItem(ClearSpaceTitle, Flow),
     MoveDownItem(1.0),
     TextItem(ClearSpaceText(d.logo.clearspace), Flow),
     MoveDownItem(2.0)]
  }

  /** A subheading, a blank line, and one bullet per element. */
  function BulletBlock(title: string, xs: seq<string>, suffix: string): seq<Item>
  {
    [TextItem(title, Flow), MoveDownItem(1.0)] + Bullets(xs, suffix)
  }

  function ImageryBody(d: BrandData): seq<Item>
  {
    [TextItem("Style", Flow),
     MoveDownItem(1.0),
     TextItem(d.imageryStyle, Flow),
     MoveDownItem(1.0),
     TextItem("Composition", Flow),
     MoveDownItem(1.0),
     TextItem(d.imageryComposition, Flow)]
  }

  function VoiceTone(d: BrandData): seq<Item>
  {
    [TextItem("Tone", Flow),
     MoveDownItem(1.0),
     TextItem(d.voiceTone, Flow),
     MoveDownItem(1.0)]
  }

  function ContactBody(d: BrandData): seq<Item>
  {
    [TextItem(BrandTeamTitle, Flow),
     MoveDownItem(1.0),
     TextItem(ContactIntro, Flow),
     MoveDownItem(1.0),
     TextItem("Email: " + d.email, Flow),
     TextItem("Phone: " + d.phone, Flow)]
  }

  function IntroductionItems(d: BrandData): seq<Item>
  {
    SectionOpening(0) + IntroductionBody(d)
  }

  function ColorsItems(d: BrandData, top: real): seq<Item>
  {
    SectionOpening(1) + PaletteIntro() + GridItems(PaletteSwatches(d.colors), top) + ColorApplication()
  }

  function TypographyItems(): seq<Item>
  {
    SectionOpening(2) + HeadingStyles() + BodyTextSamples() + FontPairings()
  }

  function LogoItems(d: BrandData): seq<Item>
  {
    SectionOpening(3) + LogoClearSpace(d)
    + BulletBlock(CorrectUsageTitle, d.logo.sizes, " version") + [MoveDownItem(2.0)]
    + BulletBlock(IncorrectUsageTitle, d.logo.incorrectUsage, "")
  }

  function ImageryItems(d: BrandData): seq<Item>
  {
    SectionOpening(4) + ImageryBody(d)
  }

  function VoiceItems(d: BrandData): seq<Item>
  {
    SectionOpening(5) + VoiceTone(d) + BulletBlock(KeyAttributesTitle, d.voiceAttributes, "")
  }

  function ContactItems(d: BrandData): seq<Item>
  {
    SectionOpening(6) + ContactBody(d)
  }

  /** The number of pages: the first page plus one per `addPage` call. */
  const PageTotal: nat := 9

  /** Page `k` (counting from 0) before page numbers are stamped. */
  function BodyPage(k: nat, d: BrandData, swatchTop: real): Page
    requires k < PageTotal
  {
    match k
    case 0 => Page(CoverItems(d))
    case 1 => Page(ContentsItems())
    case 2 => Page(IntroductionItems(d))
    case 3 => Page(ColorsItems(d, swatchTop))
    case 4 => Page(TypographyItems())
    case 5 => Page(LogoItems(d))
    case 6 => Page(ImageryItems(d))
    case 7 => Page(VoiceItems(d))
    case _ => Page(ContactItems(d))
  }

  /** The first `k` pages, in the order they are added. */
  function BodyPrefix(k: nat, d: BrandData, swatchTop: real): (r: seq<Page>)
    requires k <= PageTotal
    ensures |r| == k
  {
    if k == 0 then [] else BodyPrefix(k - 1, d, swatchTop) + [BodyPage(k - 1, d, swatchTop)]
  }

  /** All pages before page numbers are stamped. */
  function BodyPages(d: BrandData, swatchTop: real): seq<Page>
  {
    BodyPrefix(PageTotal, d, swatchTop)
  }

  // ---------------------------------------------------------------------
  // Footer pass (lines 343-350)

  function BrandLine(brandName: string): string
  {
    brandName + " Brand Guidelines"
  }

  function PageLabel(number: nat, count: nat): string
  {
    "Page " + Decimal.Show(number) + " of " + Decimal.Show(count)
  }

  function FooterItems(brandName: string, i: nat, count: nat): seq<Item>
  {
    [TextItem(BrandLine(brandName), At(50.0, 800.0)),
     TextItem(PageLabel(i + 1, count), At(500.0, 800.0))]
  }

  /** Every page with its footer drawn after its content. */
  function Stamped(pages: seq<Page>, brandName: string): (r: seq<Page>)
  {
    seq(|pages|, i requires 0 <= i < |pages| => Page(pages[i].items + FooterItems(brandName, i, |pages|)))
  }

  /** The finished document. */
  function Guidelines(d: BrandData, swatchTop: real): seq<Page>
  {
    Stamped(BodyPages(d, swatchTop), d.brandName)
  }
}
