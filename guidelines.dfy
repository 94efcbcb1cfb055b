/** The four-zone guideline geometry shared by `draw4ZoneGuidelines`
    (lib/pdf-server-utils.ts, lib/pdf-utils.ts) and
    `drawSingleLineGuidelines` (lib/page-manager.ts), and the drawing surface
    they draw on: a page that keeps the log of commands issued to it. */
module Guidelines {
  import opened Constants

  datatype Colour = Colour(r: real, g: real, b: real)

  datatype Point = Point(x: real, y: real)

  /** One drawing command, as the PDF library receives it. */
  datatype Command =
    | Line(start: Point, end: Point, colour: Colour, thickness: real, dash: seq<real>)
    | Text(text: string, x: real, y: real, size: real, colour: Colour)

  const ASCENDER_COLOUR: Colour := Colour(0.2, 0.2, 0.2)
  const XHEIGHT_AREA_COLOUR: Colour := Colour(0.0, 0.6, 0.0)
  const XHEIGHT_MID_COLOUR: Colour := Colour(0.7, 0.85, 0.7)
  const DESCENDER_COLOUR: Colour := Colour(0.8, 0.2, 0.2)
  const TEXT_COLOUR: Colour := Colour(0.1, 0.1, 0.1)
  const FALLBACK_COLOUR: Colour := Colour(0.7, 0.7, 0.7)
  const GUIDE_THICKNESS: real := 0.5

  /** Where example text starts: inside the x-height box. */
  const TEXT_X: real := LEFT_MARGIN + TEXT_LEFT_MARGIN

  /** A font embedded in the document. Drawing a text the font cannot encode
      fails; `canEncode` says which texts it can. */
  datatype PdfFont = PdfFont(canEncode: string -> bool)

  /** A page of the document: its size and the commands drawn on it so far. */
  class Page {
    const width: real
    const height: real
    var commands: seq<Command>

    constructor (width: real, height: real)
      ensures this.width == width && this.height == height && commands == []
    {
      this.width := width;
      this.height := height;
      commands := [];
    }

    /** `page.drawLine` */
    method DrawLine(start: Point, end: Point, colour: Colour, thickness: real, dash: seq<real>)
      modifies this
      ensures commands == old(commands) + [Line(start, end, colour, thickness, dash)]
    {
      commands := commands + [Line(start, end, colour, thickness, dash)];
    }

    /** `page.drawText`: fails, drawing nothing, when the font cannot encode
        the text. */
    method DrawText(text: string, x: real, y: real, size: real, colour: Colour, font: PdfFont)
      returns (ok: bool)
      modifies this
      ensures ok == font.canEncode(text)
      ensures commands == old(commands) + (if ok then [Text(text, x, y, size, colour)] else [])
    {
      ok := font.canEncode(text);
      if ok {
        commands := commands + [Text(text, x, y, size, colour)];
      }
    }
  }

  /** `PageSizes.A4`, in points. */
  const A4_WIDTH: real := 595.28
  const A4_HEIGHT: real := 841.89

  /** A PDF document: the pages added to it, in order. */
  class Document {
    var pages: seq<Page>

    constructor ()
      ensures pages == []
    {
      pages := [];
    }

    /** `doc.addPage`: a fresh blank page at the end of the document. */
    method AddPage(width: real, height: real) returns (page: Page)
      modifies this
      ensures fresh(page) && page.width == width && page.height == height && page.commands == []
      ensures pages == old(pages) + [page]
    {
      page := new Page(width, height);
      pages := pages + [page];
    }
  }

  /** What a guarded `drawText` with the grey placeholder as its fallback
      leaves on the page: the text, else the placeholder, else nothing. */
  function TextOrPlaceholder(text: string, y: real, size: real, font: PdfFont): (cmds: seq<Command>)
    ensures |cmds| <= 1
    ensures cmds != [] ==> cmds[0].Text? && cmds[0].x == TEXT_X && cmds[0].y == y && cmds[0].size == size
    ensures cmds != [] && cmds[0].text != text ==> cmds[0].text == PLACEHOLDER_TEXT && !font.canEncode(text)
    ensures font.canEncode(text) ==> cmds == [Text(text, TEXT_X, y, size, TEXT_COLOUR)]
  {
    if font.canEncode(text) then [Text(text, TEXT_X, y, size, TEXT_COLOUR)]
    else if font.canEncode(PLACEHOLDER_TEXT) then [Text(PLACEHOLDER_TEXT, TEXT_X, y, size, FALLBACK_COLOUR)]
    else []
  }

  /** Draws `text` at `y`, falling back to the grey placeholder when that
      fails. */
  method DrawTextOrPlaceholder(page: Page, text: string, y: real, size: real, font: PdfFont)
    modifies page
    ensures page.commands == old(page.commands) + TextOrPlaceholder(text, y, size, font)
  {
    var ok := page.DrawText(text, TEXT_X, y, size, TEXT_COLOUR, font);
    if !ok {
      var _ := page.DrawText(PLACEHOLDER_TEXT, TEXT_X, y, size, FALLBACK_COLOUR, font);
    }
  }

  // ---------------------------------------------------------------------
  // Slot geometry
  // ---------------------------------------------------------------------

  /** The height between the top and bottom margins, shared equally by the
      `totalLines` slots. */
  function SlotHeight(pageHeight: real, totalLines: nat): real
    requires totalLines > 0
  {
    (pageHeight - TOP_MARGIN - BOTTOM_MARGIN) / totalLines as real
  }

  /** The top edge of slot `i`, counted from the top margin downwards. */
  function SlotTop(i: nat, totalLines: nat, pageHeight: real): real
    requires totalLines > 0
  {
    pageHeight - TOP_MARGIN - i as real * SlotHeight(pageHeight, totalLines)
  }

  /** The middle guideline of slot `i` sits 30% of a slot below its top. */
  function GroupCenter(i: nat, totalLines: nat, pageHeight: real): real
    requires totalLines > 0
  {
    SlotTop(i, totalLines, pageHeight) - SlotHeight(pageHeight, totalLines) * 0.3
  }

  /** The slots tile the drawable height: the first starts at the top margin,
      each starts one slot height below the previous one, and the last ends
      at the bottom margin. Their guide groups are one slot height apart. */
  lemma SlotsTileDrawableHeight(totalLines: nat, pageHeight: real)
    requires totalLines > 0
    ensures SlotTop(0, totalLines, pageHeight) == pageHeight - TOP_MARGIN
    ensures SlotTop(totalLines, totalLines, pageHeight) == BOTTOM_MARGIN
    ensures forall i: nat ::
      SlotTop(i, totalLines, pageHeight) - SlotTop(i + 1, totalLines, pageHeight) == SlotHeight(pageHeight, totalLines)
      && GroupCenter(i, totalLines, pageHeight) - GroupCenter(i + 1, totalLines, pageHeight) == SlotHeight(pageHeight, totalLines)
  {
    var h := SlotHeight(pageHeight, totalLines);
    assert totalLines as real * h == pageHeight - TOP_MARGIN - BOTTOM_MARGIN;
    forall i: nat ensures SlotTop(i, totalLines, pageHeight) - SlotTop(i + 1, totalLines, pageHeight) == h {
      assert (i + 1) as real * h == i as real * h + h;
    }
  }

  /** The five guideline heights of one slot, top to bottom: ascender line,
      x-height top, x-height middle, baseline, descender line. */
  datatype GuideYs = GuideYs(baselineY: real, xHeightTopY: real, xHeightMidY: real,
                             descenderLineY: real, ascenderLineY: real)

  /** The guides around `center`, `spacing` apart: the middle line is on the
      centre, the x-height box spans one spacing above and below it, and the
      ascender and descender lines are one more spacing out. */
  function GuideCoordinates(center: real, spacing: real): (g: GuideYs)
    ensures g.xHeightMidY == center && g.baselineY == center - spacing
    ensures g.ascenderLineY - g.xHeightTopY == spacing && g.xHeightTopY - g.xHeightMidY == spacing
    ensures g.xHeightMidY - g.baselineY == spacing && g.baselineY - g.descenderLineY == spacing
    ensures spacing > 0.0 ==>
      g.ascenderLineY > g.xHeightTopY > g.xHeightMidY > g.baselineY > g.descenderLineY
  {
    GuideYs(center - spacing, center + spacing, center, center - 2.0 * spacing, center + 2.0 * spacing)
  }

  /** The guides of slot `i`. */
  function SlotGuides(i: nat, totalLines: nat, spacing: real, pageHeight: real): GuideYs
    requires totalLines > 0
  {
    GuideCoordinates(GroupCenter(i, totalLines, pageHeight), spacing)
  }

  /** The guides of every slot of a page, as one value: what the drawing
      loops pass to the text layout of a page. */
  function Slots(totalLines: nat, spacing: real, pageHeight: real): nat -> GuideYs
    requires totalLines > 0
  {
    (i: nat) => SlotGuides(i, totalLines, spacing, pageHeight)
  }

  /** The seven line commands drawing a slot's guides: five horizontal lines
      top to bottom, only the x-height middle one dashed, then the left and
      right sides of the x-height box. */
  function GuideCommands(g: GuideYs, pageWidth: real): seq<Command> {
    var x0 := LEFT_MARGIN;
    var x1 := pageWidth - RIGHT_MARGIN;
    [ Line(Point(x0, g.ascenderLineY), Point(x1, g.ascenderLineY), ASCENDER_COLOUR, GUIDE_THICKNESS, []),
      Line(Point(x0, g.xHeightTopY), Point(x1, g.xHeightTopY), XHEIGHT_AREA_COLOUR, GUIDE_THICKNESS, []),
      Line(Point(x0, g.xHeightMidY), Point(x1, g.xHeightMidY), XHEIGHT_MID_COLOUR, GUIDE_THICKNESS, MID_DASH),
      Line(Point(x0, g.baselineY), Point(x1, g.baselineY), XHEIGHT_AREA_COLOUR, GUIDE_THICKNESS, []),
      Line(Point(x0, g.descenderLineY), Point(x1, g.descenderLineY), DESCENDER_COLOUR, GUIDE_THICKNESS, []),
      Line(Point(x0, g.xHeightTopY), Point(x0, g.baselineY), XHEIGHT_AREA_COLOUR, GUIDE_THICKNESS, []),
      Line(Point(x1, g.xHeightTopY), Point(x1, g.baselineY), XHEIGHT_AREA_COLOUR, GUIDE_THICKNESS, []) ]
  }

  /** A slot is drawn with exactly seven lines and nothing else. The first
      five are horizontal, span the margins and sit at the five guide
      heights in order; the last two are vertical, at the two margins, from
      the x-height top down to the baseline. */
  lemma GuideCommandsShape(g: GuideYs, pageWidth: real)
    ensures var cmds := GuideCommands(g, pageWidth);
      && |cmds| == 7
      && (forall k | 0 <= k < 7 :: cmds[k].Line?)
      && (forall k | 0 <= k < 5 ::
            cmds[k].start.y == cmds[k].end.y
            && cmds[k].start.x == LEFT_MARGIN && cmds[k].end.x == pageWidth - RIGHT_MARGIN)
      && [cmds[0].start.y, cmds[1].start.y, cmds[2].start.y, cmds[3].start.y, cmds[4].start.y]
         == [g.ascenderLineY, g.xHeightTopY, g.xHeightMidY, g.baselineY, g.descenderLineY]
      && (forall k | 0 <= k < 7 :: (cmds[k].dash != [] <==> k == 2))
      && cmds[5].start.x == cmds[5].end.x == LEFT_MARGIN
      && cmds[6].start.x == cmds[6].end.x == pageWidth - RIGHT_MARGIN
      && (forall k | 5 <= k < 7 :: cmds[k].start.y == g.xHeightTopY && cmds[k].end.y == g.baselineY)
  {
  }

  /** `draw4ZoneGuidelines`: draws the guides of slot `lineIndex` and returns
      their heights. */
  method Draw4ZoneGuidelines(page: Page, lineIndex: nat, totalLines: nat, lineSpacing: real,
                             pageWidth: real, pageHeight: real)
    returns (g: GuideYs)
    requires totalLines > 0
    modifies page
    ensures g == SlotGuides(lineIndex, totalLines, lineSpacing, pageHeight)
    ensures page.commands == old(page.commands) + GuideCommands(g, pageWidth)
  {
    var drawableHeight := pageHeight - TOP_MARGIN - BOTTOM_MARGIN;
    var slotHeight := drawableHeight / totalLines as real;
    var slotTopY := pageHeight - TOP_MARGIN - lineIndex as real * slotHeight;
    var groupCenterY := slotTopY - slotHeight * 0.3;

    var descenderLineY := groupCenterY - 2.0 * lineSpacing;
    var baselineY := groupCenterY - lineSpacing;
    var xHeightMidY := groupCenterY;
    var xHeightTopY := groupCenterY + lineSpacing;
    var ascenderLineY := groupCenterY + 2.0 * lineSpacing;

    var lineStartX := LEFT_MARGIN;
    var lineEndX := pageWidth - RIGHT_MARGIN;

    page.DrawLine(Point(lineStartX, ascenderLineY), Point(lineEndX, ascenderLineY), ASCENDER_COLOUR, GUIDE_THICKNESS, []);
    page.DrawLine(Point(lineStartX, xHeightTopY), Point(lineEndX, xHeightTopY), XHEIGHT_AREA_COLOUR, GUIDE_THICKNESS, []);
    page.DrawLine(Point(lineStartX, xHeightMidY), Point(lineEndX, xHeightMidY), XHEIGHT_MID_COLOUR, GUIDE_THICKNESS, MID_DASH);
    page.DrawLine(Point(lineStartX, baselineY), Point(lineEndX, baselineY), XHEIGHT_AREA_COLOUR, GUIDE_THICKNESS, []);
    page.DrawLine(Point(lineStartX, descenderLineY), Point(lineEndX, descenderLineY), DESCENDER_COLOUR, GUIDE_THICKNESS, []);
    page.DrawLine(Point(lineStartX, xHeightTopY), Point(lineStartX, baselineY), XHEIGHT_AREA_COLOUR, GUIDE_THICKNESS, []);
    page.DrawLine(Point(lineEndX, xHeightTopY), Point(lineEndX, baselineY), XHEIGHT_AREA_COLOUR, GUIDE_THICKNESS, []);

    g := GuideYs(baselineY, xHeightTopY, xHeightMidY, descenderLineY, ascenderLineY);
  }
}
