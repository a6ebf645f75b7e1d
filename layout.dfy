/** The PDF page layout engine: places each card on an A4 grid of 2 x 4
    cards and records the drawing operations of pdf-lib as values. Lengths
    are points, computed exactly with reals. */
module PdfLayout {
  import opened Types
  import opened Strings

  /** Points per millimetre. */
  const PointsPerMm: real := 2.83465

  function MmToPt(mm: real): real {
    mm * PointsPerMm
  }

  const PageW: real := MmToPt(210.0)
  const PageH: real := MmToPt(297.0)
  const CardWidth: real := MmToPt(90.0)
  const CardHeight: real := MmToPt(50.0)
  const ColGap: real := MmToPt(10.0)
  const RowGap: real := MmToPt(15.0)
  /** Two cards and one gap wide, four cards and three gaps high. */
  const TotalContentWidth: real := CardWidth * 2.0 + ColGap
  const TotalContentHeight: real := CardHeight * 4.0 + RowGap * 3.0
  const MarginX: real := (PageW - TotalContentWidth) / 2.0
  const MarginY: real := (PageH - TotalContentHeight) / 2.0
  const StripWidth: real := MmToPt(10.0)
  /** The longest title the strip takes without shrinking further. */
  const MaxTextLen: real := CardHeight - MmToPt(8.0)

  datatype Color = Rgb(r: real, g: real, b: real)

  const White: Color := Rgb(1.0, 1.0, 1.0)
  const BorderGrey: Color := Rgb(0.8, 0.8, 0.8)
  const StripYellow: Color := Rgb(0.98, 0.8, 0.08)
  const Black: Color := Rgb(0.0, 0.0, 0.0)
  const ConceptInk: Color := Rgb(0.1, 0.1, 0.1)
  const DividerGrey: Color := Rgb(0.9, 0.9, 0.9)

  datatype Font = HelveticaBold

  datatype Border = NoBorder | Border(borderColor: Color, borderWidth: real)

  /** The drawing calls of pdf-lib; rotate is in degrees, 0 when not given. */
  datatype Op =
    | Rectangle(x: real, y: real, width: real, height: real, color: Color, border: Border)
    | Text(text: string, x: real, y: real, size: real, font: Font, color: Color, rotate: real)
    | Line(startX: real, startY: real, endX: real, endY: real, thickness: real, color: Color)

  datatype Page = Page(pageWidth: real, pageHeight: real, ops: seq<Op>)

  /** widthOfTextAtSize of the bold font: a width for a text at a size. */
  type Metric = (string, real) -> real

  function Min(a: int, b: int): int {
    if a < b then a else b
  }

  // ---------------------------------------------------------------------
  // Grid geometry

  /** Slot of card i on its page: column and row of the 2 x 4 grid. */
  function Col(i: nat): nat {
    (i % 8) % 2
  }

  function Row(i: nat): nat {
    (i % 8) / 2
  }

  /** Left edge of card i. */
  function CardX(i: nat): real {
    MarginX + (Col(i) as real) * (CardWidth + ColGap)
  }

  /** Distance of card i's top edge from the top of the page. */
  function TopOffset(i: nat): real {
    MarginY + (Row(i) as real) * (CardHeight + RowGap)
  }

  /** Bottom edge of card i in PDF coordinates, which grow upwards. */
  function CardY(i: nat): real {
    PageH - TopOffset(i) - CardHeight
  }

  /** The grid is centred: the margins on both sides are equal, 10 mm across
      and 26 mm down, and so positive. */
  lemma MarginsCentre()
    ensures 2.0 * MarginX + TotalContentWidth == PageW
    ensures 2.0 * MarginY + TotalContentHeight == PageH
    ensures TotalContentWidth == MmToPt(2.0 * 90.0 + 10.0)
    ensures TotalContentHeight == MmToPt(4.0 * 50.0 + 3.0 * 15.0)
    ensures MarginX == MmToPt(10.0) && MarginY == MmToPt(26.0)
    ensures MarginX > 0.0 && MarginY > 0.0
  {
  }

  /** Card i takes slot i mod 8: column and row are in range and determine
      the slot, so different slots have different (column, row). */
  lemma {:induction false} GridSlot(i: nat)
    ensures Col(i) < 2 && Row(i) < 4
    ensures i % 8 == 2 * Row(i) + Col(i)
  {
  }

  /** The card's corner in millimetres, slot by slot. */
  lemma {:induction false} CardCorner(i: nat)
    ensures CardX(i) == if Col(i) == 0 then MmToPt(10.0) else MmToPt(110.0)
    ensures CardY(i) == MmToPt(221.0 - 65.0 * (Row(i) as real))
  {
    GridSlot(i);
    MarginsCentre();
  }

  /** Every card lies inside the content block, so inside the page. */
  lemma {:induction false} CardInsidePage(i: nat)
    ensures MarginX <= CardX(i) && CardX(i) + CardWidth <= PageW - MarginX
    ensures MarginY <= CardY(i) && CardY(i) + CardHeight <= PageH - MarginY
    ensures 0.0 < CardX(i) && CardX(i) + CardWidth < PageW
    ensures 0.0 < CardY(i) && CardY(i) + CardHeight < PageH
  {
    GridSlot(i);
    CardCorner(i);
    MarginsCentre();
  }

  /** Cards in different slots of a page do not overlap. */
  lemma {:induction false} CardsDisjoint(i: nat, j: nat)
    requires i % 8 != j % 8
    ensures || CardX(i) + CardWidth <= CardX(j) || CardX(j) + CardWidth <= CardX(i)
            || CardY(i) + CardHeight <= CardY(j) || CardY(j) + CardHeight <= CardY(i)
  {
    GridSlot(i);
    GridSlot(j);
    CardCorner(i);
    CardCorner(j);
  }

  /** Rows go down the page and columns across it, with the card size and
      the gaps between neighbours. */
  lemma {:induction false} GridOrder(i: nat, j: nat)
    ensures Row(i) < Row(j) ==> CardY(i) > CardY(j)
    ensures Row(j) == Row(i) + 1 ==> CardY(i) == CardY(j) + CardHeight + RowGap
    ensures Row(i) == Row(j) ==> CardY(i) == CardY(j)
    ensures Col(i) < Col(j) ==> CardX(j) == CardX(i) + CardWidth + ColGap
    ensures Col(i) == Col(j) ==> CardX(i) == CardX(j)
  {
    CardCorner(i);
    CardCorner(j);
  }

  // ---------------------------------------------------------------------
  // The font-fit loop

  /** The sizes the font-fit loop tries: 12, 11.5, 11, ... down to 4. */
  function LadderSize(m: nat): real {
    12.0 - 0.5 * (m as real)
  }

  /** Steps the loop takes from step m on: it goes on while the text is too
      wide and the size is above 4. */
  function FitSteps(text: string, width: Metric, m: nat): (r: nat)
    requires m <= 16
    decreases 16 - m
    ensures m <= r <= 16
    ensures LadderSize(r) > 4.0 ==> width(text, LadderSize(r)) <= MaxTextLen
    ensures forall k :: m <= k < r ==> width(text, LadderSize(k)) > MaxTextLen
  {
    if width(text, LadderSize(m)) > MaxTextLen && LadderSize(m) > 4.0 then FitSteps(text, width, m + 1) else m
  }

  /** The title size: the largest size on the ladder at which the title
      fits, or 4 when none does. */
  function FittedSize(text: string, width: Metric): (size: real)
    ensures 4.0 <= size <= 12.0
    ensures exists m: nat :: m <= 16 && size == LadderSize(m)
    ensures size > 4.0 ==> width(text, size) <= MaxTextLen
    ensures forall k: nat :: LadderSize(k) > size ==> width(text, LadderSize(k)) > MaxTextLen
  {
    var m := FitSteps(text, width, 0);
    assert forall k: nat :: LadderSize(k) > LadderSize(m) ==> k < m;
    LadderSize(m)
  }

  /** The font-fit loop of generatePDF. */
  method FitTitleSize(text: string, width: Metric) returns (fontSize: real, textWidth: real)
    ensures fontSize == FittedSize(text, width)
    ensures textWidth == width(text, fontSize)
  {
    fontSize := 12.0;
    textWidth := width(text, fontSize);
    ghost var m: nat := 0;
    while textWidth > MaxTextLen && fontSize > 4.0
      invariant m <= 16 && fontSize == LadderSize(m)
      invariant textWidth == width(text, fontSize)
      invariant FitSteps(text, width, m) == FitSteps(text, width, 0)
      decreases 16 - m
    {
      fontSize := fontSize - 0.5;
      textWidth := width(text, fontSize);
      m := m + 1;
    }
  }

  lemma {:induction false} FitStepsMonotone(a: string, b: string, width: Metric, m: nat)
    requires m <= 16
    requires forall k: nat :: k <= 16 ==> width(a, LadderSize(k)) <= width(b, LadderSize(k))
    ensures FitSteps(a, width, m) <= FitSteps(b, width, m)
    decreases 16 - m
  {
    if FitSteps(b, width, m) > m {
      if FitSteps(a, width, m) > m {
        FitStepsMonotone(a, b, width, m + 1);
      }
    }
  }

  /** A title that is nowhere wider than another gets a size at least as large. */
  lemma FittedSizeMonotone(a: string, b: string, width: Metric)
    requires forall k: nat :: k <= 16 ==> width(a, LadderSize(k)) <= width(b, LadderSize(k))
    ensures FittedSize(b, width) <= FittedSize(a, width)
  {
    FitStepsMonotone(a, b, width, 0);
  }

  // ---------------------------------------------------------------------
  // The operations of one card

  function ContentX(x: real): real {
    x + StripWidth + MmToPt(5.0)
  }

  function ContentTopY(y: real): real {
    y + CardHeight - MmToPt(10.0)
  }

  const LineHeight: real := MmToPt(8.0)

  function BackgroundOp(x: real, y: real): Op {
    Rectangle(x, y, CardWidth, CardHeight, White, Border(BorderGrey, 1.0))
  }

  function StripOp(x: real, y: real): Op {
    Rectangle(x, y, StripWidth, CardHeight, StripYellow, NoBorder)
  }

  /** The rotated title: baseline right of the strip's centre by half the cap
      height (0.7 of the size) over 2.2, centred on the card's height by its
      measured width. */
  function TitleOp(x: real, y: real, text: string, size: real, textWidth: real): Op {
    var centerX := x + StripWidth / 2.0;
    var capHeight := size * 0.7;
    Text(text, centerX + capHeight / 2.2, y + CardHeight / 2.0 - textWidth / 2.0, size, HelveticaBold, Black, 90.0)
  }

  function ConceptOp(x: real, y: real, idx: nat, concept: string): Op {
    Text(concept, ContentX(x), ContentTopY(y) - (idx as real) * LineHeight, 11.0, HelveticaBold, ConceptInk, 0.0)
  }

  function DividerOp(x: real, y: real, idx: nat): Op {
    var lineY := ContentTopY(y) - (idx as real) * LineHeight - MmToPt(3.0);
    Line(ContentX(x), lineY, x + CardWidth - MmToPt(5.0), lineY, 0.5, DividerGrey)
  }

  /** The operations of the first n shown concepts: each concept's text,
      followed by a divider for the first four. */
  function ConceptRows(x: real, y: real, shown: seq<string>, n: nat): (ops: seq<Op>)
    requires n <= |shown|
  {
    if n == 0 then []
    else ConceptRows(x, y, shown, n - 1) + [ConceptOp(x, y, n - 1, shown[n - 1])]
         + (if n - 1 < 4 then [DividerOp(x, y, n - 1)] else [])
  }

  /** The concepts drawn: concepts.slice(0, 5). */
  function Shown(card: GameCard): (shown: seq<string>)
    ensures |shown| == Min(5, |card.concepts|)
    ensures shown == card.concepts[..|shown|]
  {
    card.concepts[..Min(5, |card.concepts|)]
  }

  /** Everything drawn for card i, in order: background, strip, title,
      concept lines with their dividers. */
  function CardOps(card: GameCard, i: nat, cardTitle: string, width: Metric): seq<Op> {
    var x, y := CardX(i), CardY(i);
    [BackgroundOp(x, y), StripOp(x, y), TitleAt(x, y, cardTitle, width)]
      + ConceptRows(x, y, Shown(card), |Shown(card)|)
  }

  /** The title of a card at corner (x, y): the trimmed title or the default,
      at the fitted size. */
  function TitleAt(x: real, y: real, cardTitle: string, width: Metric): Op {
    var text := TitleOrDefault(cardTitle);
    var size := FittedSize(text, width);
    TitleOp(x, y, text, size, width(text, size))
  }

  lemma {:induction false} ConceptRowsAt(x: real, y: real, shown: seq<string>, n: nat)
    requires n <= |shown| && n <= 5
    ensures |ConceptRows(x, y, shown, n)| == n + Min(n, 4)
    ensures forall idx :: 0 <= idx < n ==> ConceptRows(x, y, shown, n)[2 * idx] == ConceptOp(x, y, idx, shown[idx])
    ensures forall idx :: 0 <= idx < n && idx < 4 ==> ConceptRows(x, y, shown, n)[2 * idx + 1] == DividerOp(x, y, idx)
  {
    if n > 0 {
      ConceptRowsAt(x, y, shown, n - 1);
    }
  }

  /** The start of every card's operations: background over the full card,
      the strip at the same corner with the full height, then the title. */
  lemma {:induction false} CardOpsShape(card: GameCard, i: nat, cardTitle: string, width: Metric)
    ensures var ops := CardOps(card, i, cardTitle, width);
      var k := |Shown(card)|;
      && |ops| == 3 + k + Min(k, 4)
      && ops[0] == Rectangle(CardX(i), CardY(i), CardWidth, CardHeight, White, Border(BorderGrey, 1.0))
      && ops[1] == Rectangle(CardX(i), CardY(i), StripWidth, CardHeight, StripYellow, NoBorder)
      && ops[2].Text? && ops[2].text == TitleOrDefault(cardTitle) && ops[2].rotate == 90.0
  {
    var k := |Shown(card)|;
    ConceptRowsAt(CardX(i), CardY(i), Shown(card), k);
  }

  /** Title placement: its size comes from the font-fit loop, its midpoint
      along the text is the card's vertical middle, and its baseline sits
      0.7 * size / 2.2 right of the strip's centre. When the size is above
      the floor the whole title lies within the strip, 4 mm from the card's
      top and bottom. */
  lemma {:induction false} TitlePlacement(card: GameCard, i: nat, cardTitle: string, width: Metric)
    ensures var t := CardOps(card, i, cardTitle, width)[2];
      var w := width(t.text, t.size);
      && t.Text? && t.size == FittedSize(TitleOrDefault(cardTitle), width)
      && t.y + w / 2.0 == CardY(i) + CardHeight / 2.0
      && t.x == CardX(i) + StripWidth / 2.0 + 0.7 * t.size / 2.2
      && CardX(i) < t.x < CardX(i) + StripWidth
      && (t.size > 4.0 ==> CardY(i) + MmToPt(4.0) <= t.y && t.y + w <= CardY(i) + CardHeight - MmToPt(4.0))
  {
    CardOpsShape(card, i, cardTitle, width);
  }

  /** Op 3 + 2 idx of a card is the text of its concept idx, and for the
      first four concepts op 4 + 2 idx is the divider under it. */
  lemma {:induction false} ConceptSlots(card: GameCard, i: nat, cardTitle: string, width: Metric, idx: nat)
    requires idx < |Shown(card)|
    ensures var ops := CardOps(card, i, cardTitle, width);
      && |ops| > 3 + 2 * idx
      && ops[3 + 2 * idx] == ConceptOp(CardX(i), CardY(i), idx, card.concepts[idx])
      && (idx < 4 ==> (|ops| > 4 + 2 * idx && ops[4 + 2 * idx] == DividerOp(CardX(i), CardY(i), idx)))
  {
    var k := |Shown(card)|;
    ConceptRowsAt(CardX(i), CardY(i), Shown(card), k);
    var ops := CardOps(card, i, cardTitle, width);
    var rows := ConceptRows(CardX(i), CardY(i), Shown(card), k);
    assert ops == ops[..3] + rows;
    assert ops[3 + 2 * idx] == rows[2 * idx];
    if idx < 4 {
      assert ops[4 + 2 * idx] == rows[2 * idx + 1];
    }
  }

  /** Concept line idx (one of the five shown) is drawn in 11 pt, 15 mm right
      of the card's left edge x and 10 mm + idx * 8 mm below its top; its
      divider runs 3 mm lower, from the text's left edge to 5 mm before the
      card's right edge. Both stay inside the card. */
  lemma {:induction false} ConceptGeometry(x: real, y: real, idx: nat, concept: string)
    requires idx < 5
    ensures var t := ConceptOp(x, y, idx, concept);
      var d := DividerOp(x, y, idx);
      && t.text == concept && t.size == 11.0 && t.rotate == 0.0
      && t.x == x + MmToPt(15.0)
      && t.y == y + CardHeight - MmToPt(10.0) - (idx as real) * MmToPt(8.0)
      && d.startX == t.x && d.endX == x + MmToPt(85.0)
      && d.startY == t.y - MmToPt(3.0) && d.endY == d.startY
      && y < d.startY && t.y < y + CardHeight
      && x < t.x < d.endX < x + CardWidth
  {
  }

  // ---------------------------------------------------------------------
  // The document

  /** pages with ops appended to the last page. */
  function DrawOnLast(pages: seq<Page>, ops: seq<Op>): (r: seq<Page>)
    requires pages != []
    ensures |r| == |pages|
    ensures forall p :: 0 <= p < |pages| - 1 ==> r[p] == pages[p]
    ensures r[|r| - 1] == pages[|pages| - 1].(ops := pages[|pages| - 1].ops + ops)
  {
    var last := pages[|pages| - 1];
    pages[..|pages| - 1] + [last.(ops := last.ops + ops)]
  }

  lemma DrawOnLastTwice(pages: seq<Page>, a: seq<Op>, b: seq<Op>)
    requires pages != []
    ensures DrawOnLast(DrawOnLast(pages, a), b) == DrawOnLast(pages, a + b)
  {
    var last := pages[|pages| - 1];
    assert last.ops + a + b == last.ops + (a + b);
  }

  /** The pdf-lib document under construction. Drawing goes to the page
      most recently added. */
  class Document {
    var pages: seq<Page>

    constructor ()
      ensures pages == []
    {
      pages := [];
    }

    method AddPage(w: real, h: real)
      modifies this
      ensures pages == old(pages) + [Page(w, h, [])]
    {
      pages := pages + [Page(w, h, [])];
    }

    method Draw(op: Op)
      requires pages != []
      modifies this
      ensures pages == DrawOnLast(old(pages), [op])
    {
      pages := DrawOnLast(pages, [op]);
    }
  }

  lemma DrawNothing(pages: seq<Page>)
    requires pages != []
    ensures DrawOnLast(pages, []) == pages
  {
    var last := pages[|pages| - 1];
    assert last.ops + [] == last.ops;
  }

  /** The concept loop of generatePDF: each shown concept's text and, for
      the first four, the divider under it. */
  method DrawConcepts(doc: Document, x: real, y: real, shown: seq<string>)
    requires doc.pages != []
    modifies doc
    ensures doc.pages == DrawOnLast(old(doc.pages), ConceptRows(x, y, shown, |shown|))
  {
    var contentX := x + StripWidth + MmToPt(5.0);
    var contentTopY := y + CardHeight - MmToPt(10.0);
    var lineHeight := MmToPt(8.0);
    ghost var start := doc.pages;
    DrawNothing(start);
    for idx := 0 to |shown|
      invariant doc.pages == DrawOnLast(start, ConceptRows(x, y, shown, idx))
    {
      ghost var drawn := ConceptRows(x, y, shown, idx);
      var textY := contentTopY - (idx as real) * lineHeight;
      DrawOnLastTwice(start, drawn, [ConceptOp(x, y, idx, shown[idx])]);
      doc.Draw(Text(shown[idx], contentX, textY, 11.0, HelveticaBold, ConceptInk, 0.0));
      drawn := drawn + [ConceptOp(x, y, idx, shown[idx])];
      if idx < 4 {
        var lineY := textY - MmToPt(3.0);
        DrawOnLastTwice(start, drawn, [DividerOp(x, y, idx)]);
        doc.Draw(Line(contentX, lineY, x + CardWidth - MmToPt(5.0), lineY, 0.5, DividerGrey));
        drawn := drawn + [DividerOp(x, y, idx)];
      }
      assert drawn == ConceptRows(x, y, shown, idx + 1);
    }
  }

  /** The title part of the card loop: trim, fit and draw rotated. */
  method DrawTitle(doc: Document, x: real, y: real, cardTitle: string, width: Metric)
    requires doc.pages != []
    modifies doc
    ensures doc.pages == DrawOnLast(old(doc.pages), [TitleAt(x, y, cardTitle, width)])
  {
    var titleText := TrimOr(cardTitle, DefaultTitle);
    var fontSize, textWidth := FitTitleSize(titleText, width);
    doc.Draw(TitleOp(x, y, titleText, fontSize, textWidth));
  }

  /** The body of the card loop of generatePDF after the page is chosen:
      the grid position, background, strip, fitted title and concepts. */
  method DrawCard(doc: Document, card: GameCard, i: nat, cardTitle: string, width: Metric)
    requires doc.pages != []
    modifies doc
    ensures doc.pages == DrawOnLast(old(doc.pages), CardOps(card, i, cardTitle, width))
  {
    var x := CardX(i);
    var y := CardY(i);
    ghost var start := doc.pages;

    doc.Draw(Rectangle(x, y, CardWidth, CardHeight, White, Border(BorderGrey, 1.0)));
    ghost var drawn := [BackgroundOp(x, y)];
    assert doc.pages == DrawOnLast(start, drawn);

    ghost var mid := doc.pages;
    doc.Draw(Rectangle(x, y, StripWidth, CardHeight, StripYellow, NoBorder));
    assert doc.pages == DrawOnLast(mid, [StripOp(x, y)]);
    DrawOnLastTwice(start, drawn, [StripOp(x, y)]);
    drawn := drawn + [StripOp(x, y)];
    assert doc.pages == DrawOnLast(start, drawn);

    mid := doc.pages;
    DrawTitle(doc, x, y, cardTitle, width);
    assert doc.pages == DrawOnLast(mid, [TitleAt(x, y, cardTitle, width)]);
    DrawOnLastTwice(start, drawn, [TitleAt(x, y, cardTitle, width)]);
    drawn := drawn + [TitleAt(x, y, cardTitle, width)];
    assert doc.pages == DrawOnLast(start, drawn);

    var shown := card.concepts[..Min(5, |card.concepts|)];
    mid := doc.pages;
    DrawConcepts(doc, x, y, shown);
    assert doc.pages == DrawOnLast(mid, ConceptRows(x, y, shown, |shown|));
    DrawOnLastTwice(start, drawn, ConceptRows(x, y, shown, |shown|));
    assert drawn == [BackgroundOp(x, y), StripOp(x, y), TitleAt(x, y, cardTitle, width)];
    assert shown == Shown(card);
  }

  // ---------------------------------------------------------------------
  // All pages

  /** The operations of each card, in deck order. */
  function CardsOps(cards: seq<GameCard>, cardTitle: string, width: Metric): (items: seq<seq<Op>>)
    ensures |items| == |cards|
    ensures forall i :: 0 <= i < |cards| ==> items[i] == CardOps(cards[i], i, cardTitle, width)
  {
    seq(|cards|, i requires 0 <= i < |cards| => CardOps(cards[i], i, cardTitle, width))
  }

  /** The operations of items a .. b-1, in order. */
  function RangeOps(items: seq<seq<Op>>, a: nat, b: nat): seq<Op>
    requires a <= b <= |items|
    decreases b - a
  {
    if a == b then [] else RangeOps(items, a, b - 1) + items[b - 1]
  }

  /** The pages after drawing the first n items: ceil(n / 8) A4 pages, page p
      holding the items 8p .. min(n, 8p + 8) - 1 in order. */
  function Pages(items: seq<seq<Op>>, n: nat): (pages: seq<Page>)
    requires n <= |items|
    ensures |pages| == (n + 7) / 8
  {
    seq((n + 7) / 8, p requires 0 <= p < (n + 7) / 8 =>
      Page(PageW, PageH, RangeOps(items, 8 * p, Min(n, 8 * p + 8))))
  }

  /** The pages generatePDF draws for a deck. */
  function Layout(cards: seq<GameCard>, cardTitle: string, width: Metric): seq<Page> {
    Pages(CardsOps(cards, cardTitle, width), |cards|)
  }

  /** Page arithmetic for the step from n - 1 to n items, with q the page of
      item n - 1. */
  lemma PageCountStep(n: nat)
    requires n > 0
    ensures var q := (n - 1) / 8;
      && 8 * q <= n - 1 < 8 * q + 8
      && (n + 7) / 8 == q + 1
      && (n + 6) / 8 == (if (n - 1) % 8 == 0 then q else q + 1)
      && ((n - 1) % 8 == 0 <==> n - 1 == 8 * q)
  {
  }

  /** The pages before item i is drawn: a fresh page is added when i is a
      multiple of 8. */
  function Opened(items: seq<seq<Op>>, i: nat): (pages: seq<Page>)
    requires i < |items|
    ensures pages != []
  {
    PageCountStep(i + 1);
    if i % 8 == 0 then Pages(items, i) + [Page(PageW, PageH, [])] else Pages(items, i)
  }

  lemma {:induction false} PageStep(items: seq<seq<Op>>, i: nat, p: nat)
    requires i < |items|
    requires p < (i + 8) / 8
    ensures p < |Opened(items, i)|
    ensures DrawOnLast(Opened(items, i), items[i])[p] == Pages(items, i + 1)[p]
  {
    PageCountStep(i + 1);
    var q := i / 8;
    var current := Opened(items, i);
    assert |current| == q + 1;
    var hi := Min(i + 1, 8 * p + 8);
    var want := Page(PageW, PageH, RangeOps(items, 8 * p, hi));
    assert Pages(items, i + 1)[p] == want;
    if p < q {
      assert Min(i, 8 * p + 8) == hi;
      assert current[p] == Pages(items, i)[p] == want;
    } else if i % 8 == 0 {
      assert 8 * p == i && hi == i + 1;
      assert current[p] == Page(PageW, PageH, []);
      assert RangeOps(items, i, i + 1) == [] + items[i];
    } else {
      assert Min(i, 8 * p + 8) == i && hi == i + 1;
      assert current[p] == Pages(items, i)[p] == Page(PageW, PageH, RangeOps(items, 8 * p, i));
      assert RangeOps(items, 8 * p, i + 1) == RangeOps(items, 8 * p, i) + items[i];
    }
  }

  /** Drawing item i on the last page, after opening a page when i is a
      multiple of 8, gives the pages of i + 1 items. */
  lemma PagesStep(items: seq<seq<Op>>, i: nat)
    requires i < |items|
    ensures DrawOnLast(Opened(items, i), items[i]) == Pages(items, i + 1)
  {
    PageCountStep(i + 1);
    forall p | 0 <= p < (i + 8) / 8
      ensures DrawOnLast(Opened(items, i), items[i])[p] == Pages(items, i + 1)[p]
    {
      PageStep(items, i, p);
    }
  }

  /** One pass of the card loop of generatePDF: add a page when the card
      starts one, then draw the card on the last page. */
  method PlaceCard(doc: Document, cards: seq<GameCard>, i: nat, cardTitle: string, width: Metric)
    requires i < |cards|
    requires doc.pages == Pages(CardsOps(cards, cardTitle, width), i)
    modifies doc
    ensures doc.pages == Pages(CardsOps(cards, cardTitle, width), i + 1)
  {
    ghost var items := CardsOps(cards, cardTitle, width);
    if i % 8 == 0 {
      doc.AddPage(PageW, PageH);
    }
    assert doc.pages == Opened(items, i);
    DrawCard(doc, cards[i], i, cardTitle, width);
    assert items[i] == CardOps(cards[i], i, cardTitle, width);
    PagesStep(items, i);
  }

  /** generatePDF without the save and download at its end. */
  method GeneratePdf(cards: seq<GameCard>, cardTitle: string, width: Metric) returns (pages: seq<Page>)
    ensures pages == Layout(cards, cardTitle, width)
  {
    var doc := new Document();
    assert Pages(CardsOps(cards, cardTitle, width), 0) == [];
    for i := 0 to |cards|
      invariant doc.pages == Pages(CardsOps(cards, cardTitle, width), i)
    {
      PlaceCard(doc, cards, i, cardTitle, width);
    }
    pages := doc.pages;
  }

  lemma {:induction false} RangeSplit(items: seq<seq<Op>>, a: nat, i: nat, b: nat)
    requires a <= i < b <= |items|
    ensures RangeOps(items, a, b) == RangeOps(items, a, i) + items[i] + RangeOps(items, i + 1, b)
    decreases b - a
  {
    if b > i + 1 {
      RangeSplit(items, a, i, b - 1);
    }
  }

  lemma {:induction false} RangeNonEmpty(items: seq<seq<Op>>, a: nat, b: nat)
    requires a < b <= |items|
    requires items[b - 1] != []
    ensures RangeOps(items, a, b) != []
  {
  }

  /** n items make ceil(n / 8) pages; page p holds items 8p ..
      min(n, 8p + 8) - 1, between one and eight of them, and is not blank
      when no item is empty. */
  lemma PagesShape(items: seq<seq<Op>>, n: nat)
    requires n <= |items|
    ensures var pages := Pages(items, n);
      && |pages| == (n + 7) / 8
      && (n == 0 <==> pages == [])
      && forall p :: 0 <= p < |pages| ==>
           && 8 * p < Min(n, 8 * p + 8) <= 8 * p + 8
           && pages[p] == Page(PageW, PageH, RangeOps(items, 8 * p, Min(n, 8 * p + 8)))
           && ((forall k :: 0 <= k < n ==> items[k] != []) ==> pages[p].ops != [])
  {
    var pages := Pages(items, n);
    forall p | 0 <= p < |pages|
      ensures 8 * p < Min(n, 8 * p + 8) <= 8 * p + 8
      ensures (forall k :: 0 <= k < n ==> items[k] != []) ==> pages[p].ops != []
    {
      var hi := Min(n, 8 * p + 8);
      if forall k :: 0 <= k < n ==> items[k] != [] {
        RangeNonEmpty(items, 8 * p, hi);
      }
    }
  }

  /** Item i is on page i div 8, between the items before it on that page
      and the items after it. */
  lemma PageOfItem(items: seq<seq<Op>>, n: nat, i: nat)
    requires i < n <= |items|
    ensures var p := i / 8;
      && p < |Pages(items, n)|
      && Pages(items, n)[p].ops == RangeOps(items, 8 * p, i) + items[i] + RangeOps(items, i + 1, Min(n, 8 * p + 8))
  {
    var p := i / 8;
    assert 8 * p <= i < 8 * p + 8;
    var hi := Min(n, 8 * p + 8);
    RangeSplit(items, 8 * p, i, hi);
    assert Pages(items, n)[p].ops == RangeOps(items, 8 * p, hi);
  }

  /** Every card draws at least its background, strip and title. */
  lemma CardsOpsNonEmpty(cards: seq<GameCard>, cardTitle: string, width: Metric)
    ensures forall k :: 0 <= k < |cards| ==> CardsOps(cards, cardTitle, width)[k] != []
  {
    forall k | 0 <= k < |cards|
      ensures CardsOps(cards, cardTitle, width)[k] != []
    {
      CardOpsShape(cards[k], k, cardTitle, width);
    }
  }

  /** A deck of n cards makes ceil(n / 8) A4 pages; page p holds the
      operations of cards 8p .. min(n, 8p + 8) - 1, between one and eight
      cards, so no page is blank. */
  lemma LayoutPages(cards: seq<GameCard>, cardTitle: string, width: Metric)
    ensures var pages := Layout(cards, cardTitle, width);
      var items := CardsOps(cards, cardTitle, width);
      && |pages| == (|cards| + 7) / 8
      && (cards == [] <==> pages == [])
      && forall p :: 0 <= p < |pages| ==>
           && 8 * p < Min(|cards|, 8 * p + 8) <= 8 * p + 8
           && pages[p] == Page(PageW, PageH, RangeOps(items, 8 * p, Min(|cards|, 8 * p + 8)))
           && pages[p].ops != []
  {
    CardsOpsNonEmpty(cards, cardTitle, width);
    PagesShape(CardsOps(cards, cardTitle, width), |cards|);
  }

  /** Card i is drawn on page i div 8, after the cards before it on that page
      and before the cards after it; items[i] is CardOps of card i. */
  lemma CardOnPage(cards: seq<GameCard>, cardTitle: string, width: Metric, i: nat)
    requires i < |cards|
    ensures var pages := Layout(cards, cardTitle, width);
      var items := CardsOps(cards, cardTitle, width);
      var p := i / 8;
      && p < |pages|
      && pages[p].ops == RangeOps(items, 8 * p, i) + items[i] + RangeOps(items, i + 1, Min(|cards|, 8 * p + 8))
  {
    PageOfItem(CardsOps(cards, cardTitle, width), |cards|, i);
  }
}
