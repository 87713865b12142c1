/**
 * What the finished brand-guidelines document guarantees: its page count,
 * where each section starts and that the table of contents points there,
 * the layout of the colour swatch grid, the bullet lists, and the footer
 * that the page-number pass puts on every page.
 */
module GuidelinesProperties {
  import opened Wrappers
  import opened PdfDocument
  import opened BrandGuidelines
  import Decimal

  // ---------------------------------------------------------------------
  // Pages

  /** Page `i` of the first `k` pages is the `i`-th page the builder adds. */
  lemma {:induction false} BodyPrefixAt(k: nat, d: BrandData, top: real, i: nat)
    requires i < k <= PageTotal
    ensures BodyPrefix(k, d, top)[i] == BodyPage(i, d, top)
  {
    if i < k - 1 {
      BodyPrefixAt(k - 1, d, top, i);
    }
  }

  /** The finished document has nine pages, and page `i` is the body page
      `i` with the footer for "Page i+1 of 9" drawn after its content. */
  lemma GuidelinesPage(d: BrandData, top: real, i: nat)
    requires i < PageTotal
    ensures |Guidelines(d, top)| == PageTotal
    ensures Guidelines(d, top)[i].items == BodyPage(i, d, top).items + FooterItems(d.brandName, i, PageTotal)
  {
    BodyPrefixAt(PageTotal, d, top, i);
  }

  /** Section `k` (0-based, headed "k+1. ...") opens page `k + 3` of the
      document: its heading is the first thing drawn there, at (50, 50). */
  lemma SectionOpensItsPage(d: BrandData, top: real, k: nat)
    requires k < |SectionHeadings|
    ensures |Guidelines(d, top)| == PageTotal
    ensures |Guidelines(d, top)[k + FrontPages].items| > 0
    ensures Guidelines(d, top)[k + FrontPages].items[0] == TextItem(SectionHeadings[k], At(50.0, 50.0))
  {
    GuidelinesPage(d, top, k + FrontPages);
  }

  // ---------------------------------------------------------------------
  // Table of contents

  /** Length of the longest run of characters satisfying `digits` (digits
      when true, leader dots when false) at the end of `s`. */
  function SuffixRun(s: string, digits: bool): (n: nat)
    ensures n <= |s|
  {
    if |s| > 0 && (if digits then Decimal.IsDigit(s[|s| - 1]) else s[|s| - 1] == '.')
    then SuffixRun(s[..|s| - 1], digits) + 1
    else 0
  }

  /** Reads a contents line back: the heading, then at least one leader
      dot, then the page number. */
  function ParseTocLine(s: string): (r: Option<(string, nat)>)
    ensures r.Some? ==> |r.value.0| < |s|
  {
    var n := SuffixRun(s, true);
    var rest := s[..|s| - n];
    var m := SuffixRun(rest, false);
    if n == 0 || m == 0 then None
    else
      assert Decimal.AllDigits(s[|s| - n..]) by { SuffixRunChars(s, true); }
      Some((rest[..|rest| - m], Decimal.Parse(s[|s| - n..])))
  }

  lemma {:induction false} SuffixRunChars(s: string, digits: bool)
    ensures forall i :: |s| - SuffixRun(s, digits) <= i < |s| ==>
      (if digits then Decimal.IsDigit(s[i]) else s[i] == '.')
  {
    if |s| > 0 && (if digits then Decimal.IsDigit(s[|s| - 1]) else s[|s| - 1] == '.') {
      SuffixRunChars(s[..|s| - 1], digits);
    }
  }

  /** A run appended after a character that does not belong to it is
      exactly the run the scan finds. */
  lemma {:induction false} SuffixRunAppend(s: string, t: string, digits: bool)
    requires forall i :: 0 <= i < |t| ==> (if digits then Decimal.IsDigit(t[i]) else t[i] == '.')
    requires |s| > 0 ==> !(if digits then Decimal.IsDigit(s[|s| - 1]) else s[|s| - 1] == '.')
    ensures SuffixRun(s + t, digits) == |t|
  {
    if |t| > 0 {
      assert (s + t)[..|s + t| - 1] == s + t[..|t| - 1];
      SuffixRunAppend(s, t[..|t| - 1], digits);
    } else {
      assert s + t == s;
    }
  }

  /** A contents line reads back as the heading and page number it was
      made from, whenever there is at least one leader dot and the
      heading does not itself end in a dot. */
  lemma TocLineRoundTrip(heading: string, leaders: nat, page: nat)
    requires leaders > 0
    requires |heading| > 0 ==> heading[|heading| - 1] != '.'
    ensures ParseTocLine(TocLine(heading, leaders, page)) == Some((heading, page))
  {
    var s := TocLine(heading, leaders, page);
    var digits := Decimal.Show(page);
    assert s == (heading + Dots(leaders)) + digits;
    SuffixRunAppend(heading + Dots(leaders), digits, true);
    assert s[..|s| - |digits|] == heading + Dots(leaders);
    assert s[|s| - |digits|..] == digits;
    SuffixRunAppend(heading, Dots(leaders), false);
    assert (heading + Dots(leaders))[..|heading|] == heading;
    Decimal.ParseShow(page);
  }

  /** Each line of the table of contents names a section heading and a page
      number, and that page of the finished document opens with that heading. */
  lemma ContentsPointToSections(d: BrandData, top: real, k: nat)
    requires k < |TocLines()|
    ensures ParseTocLine(TocLines()[k]) == Some((SectionHeadings[k], TocPageNumbers[k]))
    ensures 1 <= TocPageNumbers[k] <= |Guidelines(d, top)|
    ensures |Guidelines(d, top)[TocPageNumbers[k] - 1].items| > 0
    ensures Guidelines(d, top)[TocPageNumbers[k] - 1].items[0] == TextItem(SectionHeadings[k], At(50.0, 50.0))
  {
    TocLineParses(k);
    SectionOpensItsPage(d, top, k);
  }

  /** Line `k` of the contents reads back as heading `k` and page number `k + 3`. */
  lemma TocLineParses(k: nat)
    requires k < |TocLines()|
    ensures ParseTocLine(TocLines()[k]) == Some((SectionHeadings[k], TocPageNumbers[k]))
    ensures TocPageNumbers[k] == k + FrontPages + 1
  {
    var h := SectionHeadings[k];
    assert h[|h| - 1] != '.';
    TocLineRoundTrip(h, TocLeaders[k], TocPageNumbers[k]);
  }

  // ---------------------------------------------------------------------
  // Swatch grid

  /** Swatches fill three columns, at x = 50, 260 and 470, left to right. */
  lemma SwatchColumns(i: nat)
    ensures SwatchX(i) == 50 || SwatchX(i) == 260 || SwatchX(i) == 470
    ensures SwatchX(i) == 50 <==> i % 3 == 0
    ensures SwatchX(i) == 260 <==> i % 3 == 1
  {
  }

  /** Consecutive rows are 90 points apart; swatch `i` is in row `i / 3`. */
  lemma SwatchRows(i: nat, top: real)
    ensures SwatchY(i, top) == top + 90.0 * (i / 3) as real
    ensures SwatchY(i + 3, top) == SwatchY(i, top) + 90.0
  {
    assert (i + 3) / 3 == i / 3 + 1;
  }

  /** Distinct swatch indices get distinct places, and their 60-point
      squares do not overlap: they are at least 210 points apart across or
      90 points apart down. */
  lemma SwatchesApart(i: nat, j: nat, top: real)
    requires i != j
    ensures SwatchX(i) != SwatchX(j) || SwatchY(i, top) != SwatchY(j, top)
    ensures SwatchX(i) - SwatchX(j) >= 210 || SwatchX(j) - SwatchX(i) >= 210
         || SwatchY(i, top) - SwatchY(j, top) >= 90.0 || SwatchY(j, top) - SwatchY(i, top) >= 90.0
  {
    assert i == i / 3 * 3 + i % 3;
    assert j == j / 3 * 3 + j % 3;
    if i / 3 == j / 3 {
      assert i % 3 != j % 3;
    } else if i / 3 < j / 3 {
      assert (j / 3 - i / 3) * 90 >= 90;
    } else {
      assert (i / 3 - j / 3) * 90 >= 90;
    }
  }

  /** The two labels of a swatch sit at its left edge, 70 and 85 points
      below its top, that is, below the 60-point square. */
  lemma SwatchLabelsBelowSquare(s: Swatch, i: nat, top: real)
    ensures var r := SwatchItems(s, i, top);
      && |r| == 3
      && r[0].RectItem? && r[0].width == r[0].height == 60.0 && r[0].fill == s.value
      && r[1].TextItem? && r[1].pos.At? && r[2].TextItem? && r[2].pos.At?
      && r[1].content == Upper(s.key) && r[2].content == s.value
      && r[1].pos.x == r[2].pos.x == r[0].x
      && r[1].pos.y == r[0].y + 70.0 && r[2].pos.y == r[0].y + 85.0
      && r[1].pos.y > r[0].y + r[0].height
  {
  }

  lemma {:induction false} GridItemsLength(ss: seq<Swatch>, top: real)
    ensures |GridItems(ss, top)| == 3 * |ss|
  {
    if |ss| > 0 {
      GridItemsLength(ss[..|ss| - 1], top);
    }
  }

  /** The grid draws one swatch per key, in key order: the three items at
      `3 * i` are swatch `i`'s square and labels. */
  lemma {:induction false} GridItemsAt(ss: seq<Swatch>, top: real, i: nat)
    requires i < |ss|
    ensures |GridItems(ss, top)| == 3 * |ss|
    ensures GridItems(ss, top)[3 * i..3 * i + 3] == SwatchItems(ss[i], i, top)
  {
    GridItemsLength(ss, top);
    var init := ss[..|ss| - 1];
    GridItemsLength(init, top);
    if i < |ss| - 1 {
      GridItemsAt(init, top, i);
      assert GridItems(ss, top)[3 * i..3 * i + 3] == GridItems(init, top)[3 * i..3 * i + 3];
    } else {
      assert GridItems(ss, top)[3 * i..3 * i + 3] == SwatchItems(ss[i], i, top);
    }
  }

  /** On the colours page the five palette colours are drawn in the order
      primary, secondary, accent, dark, light: the first row holds three
      swatches, the second row the last two. */
  lemma PaletteGrid(p: Palette, top: real, i: nat)
    requires i < 5
    ensures |GridItems(PaletteSwatches(p), top)| == 15
    ensures GridItems(PaletteSwatches(p), top)[3 * i]
         == RectItem(SwatchX(i) as real, SwatchY(i, top), 60.0, 60.0, PaletteSwatches(p)[i].value)
    ensures PaletteSwatches(p)[i].value
         == [p.primary, p.secondary, p.accent, p.dark, p.light][i]
    ensures SwatchY(i, top) == (if i < 3 then top else top + 90.0)
  {
    GridItemsAt(PaletteSwatches(p), top, i);
    assert GridItems(PaletteSwatches(p), top)[3 * i] == GridItems(PaletteSwatches(p), top)[3 * i..3 * i + 3][0];
  }

  // ---------------------------------------------------------------------
  // Bullet lists

  /** Reads one bullet line back: the element between the bullet mark and
      `suffix`, or nothing when the item is not such a line. */
  function BulletText(item: Item, suffix: string): (r: Option<string>)
    ensures r.Some? ==> item.TextItem? && item.content == BulletMark + r.value + suffix
  {
    if item.TextItem? && |item.content| >= |BulletMark| + |suffix|
       && item.content[..|BulletMark|] == BulletMark
       && item.content[|item.content| - |suffix|..] == suffix
    then
      var c := item.content;
      assert c == c[..|BulletMark|] + c[|BulletMark|..|c| - |suffix|] + c[|c| - |suffix|..];
      Some(c[|BulletMark|..|c| - |suffix|])
    else None
  }

  /** Reads a run of bullet lines back, or nothing when one of them is not a bullet line. */
  function BulletTexts(items: seq<Item>, suffix: string): (r: Option<seq<string>>)
    ensures r.Some? ==> |r.value| == |items|
  {
    if forall i :: 0 <= i < |items| ==> BulletText(items[i], suffix).Some?
    then Some(seq(|items|, i requires 0 <= i < |items| => BulletText(items[i], suffix).value))
    else None
  }

  /** One bullet line per element, in the elements' order: reading the
      lines back gives the list, and every line flows at the cursor. */
  lemma BulletsRoundTrip(xs: seq<string>, suffix: string)
    ensures |Bullets(xs, suffix)| == |xs|
    ensures BulletTexts(Bullets(xs, suffix), suffix) == Some(xs)
    ensures forall i :: 0 <= i < |xs| ==> Bullets(xs, suffix)[i].TextItem? && Bullets(xs, suffix)[i].pos == Flow
  {
    var b := Bullets(xs, suffix);
    forall i | 0 <= i < |xs|
      ensures BulletText(b[i], suffix) == Some(xs[i])
    {
      var c := BulletLine(xs[i], suffix);
      assert c[..|BulletMark|] == BulletMark;
      assert c[|c| - |suffix|..] == suffix;
      assert c[|BulletMark|..|c| - |suffix|] == xs[i];
    }
    var r := BulletTexts(b, suffix);
    assert r.Some?;
    assert forall i :: 0 <= i < |xs| ==> r.value[i] == xs[i];
    assert r.value == xs;
  }

  // ---------------------------------------------------------------------
  // Text helpers

  /** `join` adds the separator only between elements: appending an element
      to a non-empty list appends the separator and that element. */
  lemma {:induction false} JoinSnoc(xs: seq<string>, x: string, sep: string)
    requires |xs| > 0
    ensures Join(xs + [x], sep) == Join(xs, sep) + sep + x
  {
    if |xs| > 1 {
      assert (xs + [x])[1..] == xs[1..] + [x];
      JoinSnoc(xs[1..], x, sep);
    }
  }

  /** The swatch labels are the palette keys in capitals. */
  lemma SwatchKeyLabels()
    ensures Upper("primary") == "PRIMARY" && Upper("secondary") == "SECONDARY"
    ensures Upper("accent") == "ACCENT" && Upper("dark") == "DARK" && Upper("light") == "LIGHT"
  {
  }

  // ---------------------------------------------------------------------
  // Footers

  /** Length of the run of digits at the start of `s`. */
  function PrefixDigits(s: string): (n: nat)
    ensures n <= |s|
  {
    if |s| > 0 && Decimal.IsDigit(s[0]) then PrefixDigits(s[1..]) + 1 else 0
  }

  lemma {:induction false} PrefixDigitsChars(s: string)
    ensures Decimal.AllDigits(s[..PrefixDigits(s)])
  {
    if |s| > 0 && Decimal.IsDigit(s[0]) {
      PrefixDigitsChars(s[1..]);
      assert s[..PrefixDigits(s)] == [s[0]] + s[1..][..PrefixDigits(s[1..])];
    }
  }

  lemma {:induction false} PrefixDigitsAppend(s: string, t: string)
    requires Decimal.AllDigits(s)
    requires |t| > 0 && !Decimal.IsDigit(t[0])
    ensures PrefixDigits(s + t) == |s|
  {
    if |s| > 0 {
      assert (s + t)[1..] == s[1..] + t;
      PrefixDigitsAppend(s[1..], t);
    } else {
      assert s + t == t;
    }
  }

  /** Reads a footer page label "Page <i> of <n>" back into its two numbers. */
  function ParsePageLabel(s: string): Option<(nat, nat)>
  {
    if |s| < 5 || s[..5] != "Page " then None
    else
      var rest := s[5..];
      var n := PrefixDigits(rest);
      var tail := rest[n..];
      if n == 0 || |tail| < 4 || tail[..4] != " of " || !Decimal.AllDigits(tail[4..]) then None
      else
        assert Decimal.AllDigits(rest[..n]) by { PrefixDigitsChars(rest); }
        Some((Decimal.Parse(rest[..n]), Decimal.Parse(tail[4..])))
  }

  /** A page label reads back as the page number and the page count. */
  lemma PageLabelRoundTrip(number: nat, count: nat)
    ensures ParsePageLabel(PageLabel(number, count)) == Some((number, count))
  {
    var a, b := Decimal.Show(number), Decimal.Show(count);
    var s := PageLabel(number, count);
    assert s == "Page " + (a + (" of " + b));
    assert s[..5] == "Page ";
    assert s[5..] == a + (" of " + b);
    PrefixDigitsAppend(a, " of " + b);
    assert s[5..][..|a|] == a;
    assert s[5..][|a|..] == " of " + b;
    assert (" of " + b)[4..] == b;
    Decimal.ParseShow(number);
    Decimal.ParseShow(count);
  }

  /** Within one document, different pages get different page labels. */
  lemma PageLabelsDistinct(i: nat, j: nat, count: nat)
    requires i != j
    ensures PageLabel(i + 1, count) != PageLabel(j + 1, count)
  {
    PageLabelRoundTrip(i + 1, count);
    PageLabelRoundTrip(j + 1, count);
  }

  /** The page-number pass keeps every page's content and appends its footer
      after it: the brand line at (50, 800) and "Page i+1 of N" at (500, 800),
      where N is the number of pages; it adds no page. */
  lemma StampedFooter(pages: seq<Page>, brandName: string, i: nat)
    requires i < |pages|
    ensures |Stamped(pages, brandName)| == |pages|
    ensures var items := Stamped(pages, brandName)[i].items;
      && |items| == |pages[i].items| + 2
      && items[..|pages[i].items|] == pages[i].items
      && items[|pages[i].items|] == TextItem(brandName + " Brand Guidelines", At(50.0, 800.0))
      && items[|pages[i].items| + 1].TextItem?
      && items[|pages[i].items| + 1].pos == At(500.0, 800.0)
      && ParsePageLabel(items[|pages[i].items| + 1].content) == Some((i + 1, |pages|))
  {
    var items := Stamped(pages, brandName)[i].items;
    assert items[..|pages[i].items|] == pages[i].items;
    PageLabelRoundTrip(i + 1, |pages|);
  }

  /** Every page of the finished document ends with the label "Page i of 9",
      i running from 1 to 9 over the pages in order. */
  lemma GuidelinesNumbered(d: BrandData, top: real, i: nat)
    requires i < PageTotal
    ensures |Guidelines(d, top)| == PageTotal
    ensures var items := Guidelines(d, top)[i].items;
      && |items| >= 2
      && items[|items| - 1].TextItem?
      && ParsePageLabel(items[|items| - 1].content) == Some((i + 1, PageTotal))
  {
    GuidelinesPage(d, top, i);
    StampedFooter(BodyPages(d, top), d.brandName, i);
  }
}
