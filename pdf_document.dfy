/**
 * The part of pdfkit's PDFDocument that the guidelines builder relies on,
 * for a document opened with `bufferPages: true`: every page object stays
 * in the page buffer, drawing goes to the current page (`doc.page`),
 * `addPage` appends a fresh page to the buffer and makes it current, and
 * `switchToPage` makes an earlier buffered page current again.
 *
 * A page is kept as the ordered list of drawing operations made on it.
 * Text measurement, fonts, colours of text and the text cursor are
 * pdfkit's own business and are not modelled: a text call is recorded as
 * the text and the place it was asked to go.
 */
module PdfDocument {

  /** Where a text call asks its text to go: at an explicit point, or at
      pdfkit's text cursor (`doc.y`), which this model does not track. */
  datatype Pos = At(x: real, y: real) | Flow

  /** One drawing operation on a page. */
  datatype Item =
    | TextItem(content: string, pos: Pos)
    | RectItem(x: real, y: real, width: real, height: real, fill: string)
    | MoveDownItem(lines: real)

  /** What a page holds, as a value. */
  datatype Page = Page(items: seq<Item>)

  /** Width of an A4 page in PDF points, as pdfkit sizes it. */
  const A4Width: real := 595.28

  /** The contents of the page objects `ps`, in order. */
  ghost function PageValues(ps: seq<PdfPage>): (r: seq<Page>)
    reads ps
    ensures |r| == |ps|
    ensures forall i :: 0 <= i < |ps| ==> r[i] == Page(ps[i].items)
  {
    if ps == [] then [] else PageValues(ps[..|ps| - 1]) + [Page(ps[|ps| - 1].items)]
  }

  /** A page object of the buffer. */
  class PdfPage {
    var items: seq<Item>

    constructor ()
      ensures items == []
    {
      items := [];
    }

    method Draw(item: Item)
      modifies this
      ensures items == old(items) + [item]
    {
      items := items + [item];
    }
  }

  class Doc {
    /** The page buffer, first page first. */
    var pages: seq<PdfPage>
    /** The page drawing goes to (`doc.page`). */
    var page: PdfPage
    /** Its index in the buffer. */
    ghost var current: nat
    /** The document object and every page object it has allocated. */
    ghost var Repr: set<object>

    ghost predicate Valid()
      reads this
    {
      && this in Repr
      && (forall i :: 0 <= i < |pages| ==> pages[i] in Repr)
      && current < |pages|
      && page == pages[current]
      && forall i, j :: 0 <= i < j < |pages| ==> pages[i] != pages[j]
    }

    /** The buffered pages as values. */
    ghost function Contents(): (r: seq<Page>)
      reads this, pages
      ensures |r| == |pages|
    {
      PageValues(pages)
    }

    /** A new document already has its first page open. */
    constructor ()
      ensures Valid() && fresh(page) && fresh(Repr)
      ensures pages == [page] && page.items == [] && current == 0
    {
      var first := new PdfPage();
      pages := [first];
      page := first;
      current := 0;
      Repr := {this, first};
    }

    /** `bufferedPageRange().count`: how many pages are buffered. */
    function PageCount(): (n: nat)
      reads this
      requires Valid()
      ensures n == |Contents()| && n > 0
    {
      |pages|
    }

    method AddPage()
      requires Valid()
      modifies this
      ensures Valid() && fresh(page)
      ensures pages == old(pages) + [page] && page.items == []
      ensures current == |old(pages)| && Repr == old(Repr) + {page}
    {
      var p := new PdfPage();
      pages := pages + [p];
      page := p;
      current := |pages| - 1;
      Repr := Repr + {p};
    }

    /** pdfkit refuses an index outside the buffered range. */
    method SwitchToPage(n: nat)
      requires Valid() && n < |pages|
      modifies this
      ensures Valid()
      ensures pages == old(pages) && current == n && Repr == old(Repr)
    {
      page := pages[n];
      current := n;
    }

    /** `doc.text(s)`: text at the cursor. */
    method Text(s: string)
      requires Valid()
      modifies page
      ensures page.items == old(page.items) + [TextItem(s, Flow)]
    {
      page.Draw(TextItem(s, Flow));
    }

    /** `doc.text(s, x, y)`: text at an explicit point. */
    method TextAt(s: string, x: real, y: real)
      requires Valid()
      modifies page
      ensures page.items == old(page.items) + [TextItem(s, At(x, y))]
    {
      page.Draw(TextItem(s, At(x, y)));
    }

    /** `doc.moveDown(lines)`. */
    method MoveDown(lines: real)
      requires Valid()
      modifies page
      ensures page.items == old(page.items) + [MoveDownItem(lines)]
    {
      page.Draw(MoveDownItem(lines));
    }

    /** `doc.rect(x, y, width, height).fill(color)`. */
    method FillRect(x: real, y: real, width: real, height: real, color: string)
      requires Valid()
      modifies page
      ensures page.items == old(page.items) + [RectItem(x, y, width, height, color)]
    {
      page.Draw(RectItem(x, y, width, height, color));
    }
  }
}
