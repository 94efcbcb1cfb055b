/** Page assembly of lib/page-manager.ts: the page limit, page numbers, and
    the drawing of each page's guidelines, example text and number. */
module PageManagement {
  import opened Wrappers
  import opened Strings
  import opened Constants
  import opened Fonts
  import opened Guidelines
  import opened TextDistribution

  datatype NumberPosition = BottomCenter | BottomRight | TopCenter

  /** The page-number format of the configuration: `'detailed'` or not. */
  datatype NumberFormat = Simple | Detailed

  /** `MultiPageLayoutConfig` */
  datatype LayoutConfig = LayoutConfig(
    pageNumberPosition: NumberPosition, pageNumberMargin: real,
    pageNumberFontSize: real, firstPageNumbered: bool)

  /** A `Partial<MultiPageLayoutConfig>`: each field may be left out. */
  datatype LayoutOverride = LayoutOverride(
    pageNumberPosition: Option<NumberPosition>, pageNumberMargin: Option<real>,
    pageNumberFontSize: Option<real>, firstPageNumbered: Option<bool>)

  /** `{ ...defaults, ...custom }`: a field given in `custom` wins. */
  function MergeLayout(defaults: LayoutConfig, custom: LayoutOverride): (c: LayoutConfig)
    ensures c.pageNumberPosition == (if custom.pageNumberPosition.Some? then custom.pageNumberPosition.value else defaults.pageNumberPosition)
    ensures c.pageNumberMargin == (if custom.pageNumberMargin.Some? then custom.pageNumberMargin.value else defaults.pageNumberMargin)
    ensures c.pageNumberFontSize == (if custom.pageNumberFontSize.Some? then custom.pageNumberFontSize.value else defaults.pageNumberFontSize)
    ensures c.firstPageNumbered == (if custom.firstPageNumbered.Some? then custom.firstPageNumbered.value else defaults.firstPageNumbered)
  {
    LayoutConfig(
      if custom.pageNumberPosition.Some? then custom.pageNumberPosition.value else defaults.pageNumberPosition,
      if custom.pageNumberMargin.Some? then custom.pageNumberMargin.value else defaults.pageNumberMargin,
      if custom.pageNumberFontSize.Some? then custom.pageNumberFontSize.value else defaults.pageNumberFontSize,
      if custom.firstPageNumbered.Some? then custom.firstPageNumbered.value else defaults.firstPageNumbered)
  }

  /** Without overrides the defaults are kept. */
  lemma MergeWithoutOverride(defaults: LayoutConfig)
    ensures MergeLayout(defaults, LayoutOverride(None, None, None, None)) == defaults
  {
  }

  /** `validatePageLimit`: a limit below the minimum becomes the minimum, one
      above the maximum becomes the maximum, anything else is kept. */
  function ValidatePageLimit(limits: PageLimitConfig, pageLimit: int): (r: int)
    ensures limits.Valid() ==> limits.minPages <= r <= limits.maxPages
    ensures limits.minPages <= pageLimit <= limits.maxPages ==> r == pageLimit
    ensures pageLimit < limits.minPages ==> r == limits.minPages
    ensures limits.minPages <= pageLimit ==> r == Min(pageLimit, limits.maxPages)
  {
    if pageLimit < limits.minPages then limits.minPages
    else if pageLimit > limits.maxPages then limits.maxPages
    else pageLimit
  }

  /** Validating twice changes nothing more, and a larger request never gives
      a smaller limit. */
  lemma ValidatePageLimitStable(limits: PageLimitConfig, a: int, b: int)
    requires limits.Valid()
    ensures ValidatePageLimit(limits, ValidatePageLimit(limits, a)) == ValidatePageLimit(limits, a)
    ensures a <= b ==> ValidatePageLimit(limits, a) <= ValidatePageLimit(limits, b)
  {
  }

  /** `formatPageNumber`: `"Page N of M"` in the detailed format, otherwise
      the bare number. Either way the number reads back. */
  function FormatPageNumber(format: NumberFormat, currentPage: nat, totalPages: nat): (r: string)
    ensures format.Detailed? ==>
      r == "Page " + NatToString(currentPage) + " of " + NatToString(totalPages)
    ensures format.Simple? ==>
      (forall i | 0 <= i < |r| :: IsDigit(r[i])) && r != [] && ParseNat(r) == currentPage
  {
    NatToStringRoundTrip(currentPage);
    if format.Detailed? then "Page " + NatToString(currentPage) + " of " + NatToString(totalPages)
    else NatToString(currentPage)
  }

  /** The estimated width of a page-number text. */
  function NumberWidth(text: string, fontSize: real): real {
    |text| as real * fontSize * 0.6
  }

  /** `calculatePageNumberPosition`: centred texts have equal space on both
      sides, a bottom-right text ends at the right margin, bottom texts sit
      `pageNumberMargin` above the page bottom and a top text ends that far
      below the page top. */
  function CalculatePageNumberPosition(layout: LayoutConfig, pageWidth: real, pageHeight: real,
                                       text: string, fontSize: real): (p: Point)
    ensures var w := NumberWidth(text, fontSize);
      && (layout.pageNumberPosition != BottomRight ==> p.x == pageWidth - (p.x + w))
      && (layout.pageNumberPosition == BottomRight ==> p.x + w == pageWidth - RIGHT_MARGIN)
      && (layout.pageNumberPosition != TopCenter ==> p.y == layout.pageNumberMargin)
      && (layout.pageNumberPosition == TopCenter ==> p.y + fontSize == pageHeight - layout.pageNumberMargin)
  {
    var textWidth := NumberWidth(text, fontSize);
    match layout.pageNumberPosition
    case BottomCenter => Point((pageWidth - textWidth) / 2.0, layout.pageNumberMargin)
    case BottomRight => Point(pageWidth - textWidth - RIGHT_MARGIN, layout.pageNumberMargin)
    case TopCenter => Point((pageWidth - textWidth) / 2.0, pageHeight - layout.pageNumberMargin - fontSize)
  }

  /** `shouldAddPageNumber`: only the first page can go unnumbered. */
  function ShouldAddPageNumber(layout: LayoutConfig, pageNumber: nat): (b: bool)
    ensures !b <==> !layout.firstPageNumbered && pageNumber == 1
  {
    if !layout.firstPageNumbered && pageNumber == 1 then false else true
  }

  const PAGE_NUMBER_COLOUR: Colour := Colour(0.4, 0.4, 0.4)

  /** The standard font a page number is drawn in when no font is given; a
      page number is plain ASCII, which it always encodes. */
  const STANDARD_FONT: PdfFont := PdfFont(_ => true)

  // ---------------------------------------------------------------------
  // What a page shows
  // ---------------------------------------------------------------------

  /** The guides of slots `0 .. n-1`, top slot first, with `slot` giving
      each slot's guides. */
  function GuidesUpTo(n: nat, slot: nat -> GuideYs, pageWidth: real): (r: seq<Command>) {
    if n == 0 then []
    else GuidesUpTo(n - 1, slot, pageWidth) + GuideCommands(slot(n - 1), pageWidth)
  }

  /** A slice that lies within the first part of a concatenation. */
  lemma SliceOfPrefix<T>(a: seq<T>, b: seq<T>, lo: nat, hi: nat)
    requires lo <= hi <= |a|
    ensures (a + b)[lo..hi] == a[lo..hi]
  {
    assert forall j | 0 <= j < hi - lo :: (a + b)[lo..hi][j] == a[lo..hi][j];
  }

  /** Each slot is drawn exactly once, in slot order: the log is seven
      commands per slot and its `i`-th block of seven is slot `i`'s guides. */
  lemma {:induction false} GuidesUpToBlocks(n: nat, slot: nat -> GuideYs, pageWidth: real)
    ensures var r := GuidesUpTo(n, slot, pageWidth);
      && |r| == 7 * n
      && forall i | 0 <= i < n :: r[7 * i..7 * i + 7] == GuideCommands(slot(i), pageWidth)
  {
    if n > 0 {
      GuidesUpToBlocks(n - 1, slot, pageWidth);
      var prev := GuidesUpTo(n - 1, slot, pageWidth);
      var last := GuideCommands(slot(n - 1), pageWidth);
      var r := prev + last;
      assert |last| == 7 && |prev| == 7 * (n - 1);
      forall i | 0 <= i < n
        ensures r[7 * i..7 * i + 7] == GuideCommands(slot(i), pageWidth)
      {
        if i < n - 1 {
          SliceOfPrefix(prev, last, 7 * i, 7 * i + 7);
        } else {
          assert r[7 * i..7 * i + 7] == last;
        }
      }
    }
  }

  /** What slot `i` shows of `lines`, with `slot` giving each slot's guides:
      on an even slot, the line at half its index unless that line is
      empty. */
  function SlotText(lines: seq<string>, i: nat, slot: nat -> GuideYs, size: real, font: PdfFont): seq<Command>
    requires i / 2 < |lines|
  {
    if i % 2 == 0 && lines[i / 2] != "" then
      TextOrPlaceholder(lines[i / 2], slot(i).baselineY, size, font)
    else []
  }

  /** The text drawn on slots `0 .. n-1`. */
  function TextUpTo(lines: seq<string>, n: nat, slot: nat -> GuideYs, size: real, font: PdfFont): seq<Command>
    requires n <= |lines|
  {
    if n == 0 then []
    else TextUpTo(lines, n - 1, slot, size, font) + SlotText(lines, n - 1, slot, size, font)
  }

  /** What one slot adds: only an even slot `i` with a non-empty line shows
      anything, a text on its own baseline showing that line or the
      placeholder, and it shows the line whenever the font encodes it. */
  lemma SlotTextShape(lines: seq<string>, i: nat, slot: nat -> GuideYs, size: real, font: PdfFont)
    requires i / 2 < |lines|
    ensures forall c: Command | c in SlotText(lines, i, slot, size, font) ::
      && c.Text? && i % 2 == 0
      && c.y == slot(i).baselineY
      && (c.text == lines[i / 2] || c.text == PLACEHOLDER_TEXT)
    ensures i % 2 == 0 && lines[i / 2] != "" && font.canEncode(lines[i / 2]) ==>
      Text(lines[i / 2], TEXT_X, slot(i).baselineY, size, TEXT_COLOUR) in SlotText(lines, i, slot, size, font)
  {
    if i % 2 == 0 && lines[i / 2] != "" {
      var cmds := TextOrPlaceholder(lines[i / 2], slot(i).baselineY, size, font);
      assert forall c | c in cmds :: c == cmds[0];
    }
  }

  /** Every command of `cmds` is a text on the baseline of an even slot `2k`
      below `n`, showing line `k` or the placeholder. */
  ghost predicate TextsOnEvenSlots(cmds: seq<Command>, lines: seq<string>, n: nat, slot: nat -> GuideYs) {
    forall c: Command | c in cmds :: c.Text? && exists k: nat | 2 * k < n && k < |lines| ::
      c.y == slot(2 * k).baselineY && (c.text == lines[k] || c.text == PLACEHOLDER_TEXT)
  }

  /** Slot `n - 1`'s text and the text before it are both on even slots
      below `n`. */
  lemma TextsOnEvenSlotsStep(prev: seq<Command>, lines: seq<string>, n: nat, slot: nat -> GuideYs,
                             size: real, font: PdfFont)
    requires 0 < n <= |lines| && TextsOnEvenSlots(prev, lines, n - 1, slot)
    ensures TextsOnEvenSlots(prev + SlotText(lines, n - 1, slot, size, font), lines, n, slot)
  {
    SlotTextShape(lines, n - 1, slot, size, font);
    forall c: Command | c in prev + SlotText(lines, n - 1, slot, size, font)
      ensures c.Text? && exists k: nat | 2 * k < n && k < |lines| ::
        c.y == slot(2 * k).baselineY && (c.text == lines[k] || c.text == PLACEHOLDER_TEXT)
    {
      if c in prev {
        var k: nat :| 2 * k < n - 1 && k < |lines| && c.y == slot(2 * k).baselineY
                      && (c.text == lines[k] || c.text == PLACEHOLDER_TEXT);
      } else {
        var k: nat := (n - 1) / 2;
        assert 2 * k == n - 1;
      }
    }
  }

  /** Text goes only on even slots: every command is a text on the baseline
      of a slot `2k` below `n`, showing line `k` or the placeholder. */
  lemma {:induction false} PageTextSound(lines: seq<string>, n: nat, slot: nat -> GuideYs, size: real, font: PdfFont)
    requires n <= |lines|
    ensures TextsOnEvenSlots(TextUpTo(lines, n, slot, size, font), lines, n, slot)
  {
    if n > 0 {
      PageTextSound(lines, n - 1, slot, size, font);
      TextsOnEvenSlotsStep(TextUpTo(lines, n - 1, slot, size, font), lines, n, slot, size, font);
    }
  }

  /** Every non-empty line `k` with `2k < n` that the font encodes is shown
      on the baseline of slot `2k`. */
  lemma {:induction false} PageTextComplete(lines: seq<string>, n: nat, slot: nat -> GuideYs, size: real,
                                            font: PdfFont)
    requires n <= |lines|
    ensures forall k: nat | 2 * k < n && lines[k] != "" && font.canEncode(lines[k]) ::
      Text(lines[k], TEXT_X, slot(2 * k).baselineY, size, TEXT_COLOUR) in TextUpTo(lines, n, slot, size, font)
  {
    if n > 0 {
      PageTextComplete(lines, n - 1, slot, size, font);
      var prev := TextUpTo(lines, n - 1, slot, size, font);
      var last := SlotText(lines, n - 1, slot, size, font);
      SlotTextShape(lines, n - 1, slot, size, font);
      forall k: nat | 2 * k < n && lines[k] != "" && font.canEncode(lines[k])
        ensures Text(lines[k], TEXT_X, slot(2 * k).baselineY, size, TEXT_COLOUR) in prev + last
      {
        if 2 * k < n - 1 {
          assert Text(lines[k], TEXT_X, slot(2 * k).baselineY, size, TEXT_COLOUR) in prev;
        } else {
          assert 2 * k == n - 1 && (n - 1) / 2 == k && (n - 1) % 2 == 0;
          assert Text(lines[k], TEXT_X, slot(n - 1).baselineY, size, TEXT_COLOUR) in last;
        }
      }
    }
  }

  /** Both halves together: the commands of the first `n` slots are texts,
      each on the baseline of an even slot `2k` showing line `k` or the
      placeholder, and every non-empty line `k` with `2k < n` that the font
      encodes is shown on slot `2k`. */
  lemma TextOnEvenSlots(lines: seq<string>, n: nat, slot: nat -> GuideYs, size: real, font: PdfFont)
    requires n <= |lines|
    ensures var r := TextUpTo(lines, n, slot, size, font);
      && (forall c: Command | c in r :: c.Text? && exists k: nat | 2 * k < n && k < |lines| ::
            c.y == slot(2 * k).baselineY && (c.text == lines[k] || c.text == PLACEHOLDER_TEXT))
      && (forall k: nat | 2 * k < n && lines[k] != "" && font.canEncode(lines[k]) ::
            Text(lines[k], TEXT_X, slot(2 * k).baselineY, size, TEXT_COLOUR) in r)
  {
    PageTextSound(lines, n, slot, size, font);
    PageTextComplete(lines, n, slot, size, font);
  }

  /** Two slots further on, only the even slot's text has been added. */
  lemma TextUpToStep(lines: seq<string>, i: nat, n: nat, slot: nat -> GuideYs, size: real, font: PdfFont)
    requires n <= |lines| && i % 2 == 0 && i < n
    ensures TextUpTo(lines, Min(i + 2, n), slot, size, font)
         == TextUpTo(lines, i, slot, size, font)
            + SlotText(lines, i, slot, size, font)
  {
    if i + 1 < n {
      assert SlotText(lines, i + 1, slot, size, font) == [];
      assert TextUpTo(lines, i + 2, slot, size, font)
          == TextUpTo(lines, i + 1, slot, size, font);
    }
  }

  /** `PageManager`: draws distributed pages into a document. */
  class PageManager {
    const font: FontMetadata
    const fontSize: FontSize
    const pageLimit: nat
    const layoutConfig: LayoutConfig
    const format: NumberFormat
    const sizeConfig: SizeConfig
    const lineSpacing: real := sizeConfig.lineSpacing / 4.0
    const totalLines: Positive := sizeConfig.totalLines

    /** The limit is validated against the configured bounds, and the layout
        is the configured one with `custom` laid over it. */
    constructor (font: FontMetadata, fontSize: FontSize, pageLimit: int, limits: PageLimitConfig,
                 format: NumberFormat, defaults: LayoutConfig, custom: LayoutOverride)
      requires limits.Valid()
      ensures this.font == font && this.fontSize == fontSize && this.format == format
      ensures this.pageLimit == ValidatePageLimit(limits, pageLimit)
      ensures layoutConfig == MergeLayout(defaults, custom)
      ensures sizeConfig == SizeConfigFor(fontSize.id)
    {
      this.font := font;
      this.fontSize := fontSize;
      this.pageLimit := ValidatePageLimit(limits, pageLimit);
      this.format := format;
      this.layoutConfig := MergeLayout(defaults, custom);
      this.sizeConfig := SizeConfigFor(fontSize.id);
    }

    /** `enforcePageLimit`: the first `pageLimit` contents, all of them when
        there are no more. */
    function EnforcePageLimit(pageContents: seq<PageContent>): (r: seq<PageContent>)
      ensures |r| == Min(|pageContents|, pageLimit)
      ensures r == pageContents[..|r|]
    {
      if |pageContents| <= pageLimit then pageContents else pageContents[..pageLimit]
    }

    /** Everything drawn on the page of `pageNumber` with `textLines`, in
        drawing order: guides, example text, then the page number. */
    function PageCommands(textLines: seq<string>, pageNumber: nat, totalPages: nat,
                          customFont: PdfFont, pageWidth: real, pageHeight: real): seq<Command>
    {
      var text := FormatPageNumber(format, pageNumber, totalPages);
      var size := layoutConfig.pageNumberFontSize;
      GuidesUpTo(totalLines, Slots(totalLines, lineSpacing, pageHeight), pageWidth)
      + TextUpTo(textLines, Min(|textLines|, totalLines), Slots(totalLines, lineSpacing, pageHeight),
                 fontSize.size as real * 0.8, customFont)
      + (if ShouldAddPageNumber(layoutConfig, pageNumber) then
           var p := CalculatePageNumberPosition(layoutConfig, pageWidth, pageHeight, text, size);
           [Text(text, p.x, p.y, size, PAGE_NUMBER_COLOUR)]
         else [])
    }

    /** `drawPageGuidelines`: the guides of every slot, in slot order,
        whatever the page's line count. */
    method DrawPageGuidelines(page: Page, pageContent: PageContent, pageWidth: real, pageHeight: real)
      modifies page
      ensures page.commands == old(page.commands) + GuidesUpTo(totalLines, Slots(totalLines, lineSpacing, pageHeight), pageWidth)
    {
      var firstEnd := Min(pageContent.lineCount, totalLines);
      DrawSlotRange(page, 0, firstEnd, pageWidth, pageHeight, page.commands);
      DrawSlotRange(page, pageContent.lineCount, totalLines, pageWidth, pageHeight, old(page.commands));
    }

    /** Either loop of `drawPageGuidelines`: the guides of slots `from` to
        `to - 1`, in order, following the guides of the slots before `from`
        (none when `from` is already past `to`). */
    method DrawSlotRange(page: Page, from: nat, to: nat, pageWidth: real, pageHeight: real, ghost base: seq<Command>)
      requires to <= totalLines
      requires page.commands == base + GuidesUpTo(Min(from, to), Slots(totalLines, lineSpacing, pageHeight), pageWidth)
      modifies page
      ensures page.commands == base + GuidesUpTo(to, Slots(totalLines, lineSpacing, pageHeight), pageWidth)
    {
      ghost var slots := Slots(totalLines, lineSpacing, pageHeight);
      var i := from;
      if i < to {
        while i < to
          invariant from <= i <= to
          invariant page.commands == base + GuidesUpTo(i, slots, pageWidth)
        {
          DrawSlotGuides(page, i, pageWidth, pageHeight);
          i := i + 1;
        }
      }
    }

    /** One iteration of either loop of `drawPageGuidelines`: slot `i`'s
        guides. */
    method DrawSlotGuides(page: Page, i: nat, pageWidth: real, pageHeight: real)
      modifies page
      ensures page.commands == old(page.commands) + GuideCommands(Slots(totalLines, lineSpacing, pageHeight)(i), pageWidth)
    {
      var _ := Draw4ZoneGuidelines(page, i, totalLines, lineSpacing, pageWidth, pageHeight);
    }

    /** `renderPageText`: line `k` on the baseline of slot `2k` while
        `2k < min(lines, totalLines)`, empty lines skipped, at 0.8 of the
        nominal font size. */
    method RenderPageText(page: Page, pageContent: PageContent, customFont: PdfFont,
                          pageWidth: real, pageHeight: real)
      modifies page
      ensures page.commands == old(page.commands)
        + TextUpTo(pageContent.textLines, Min(|pageContent.textLines|, totalLines),
                   Slots(totalLines, lineSpacing, pageHeight), fontSize.size as real * 0.8, customFont)
    {
      var lines := pageContent.textLines;
      var n := Min(|lines|, totalLines);
      var size := fontSize.size as real * 0.8;
      var i := 0;
      while i < n
        invariant i % 2 == 0 && i <= n + 1
        invariant page.commands == old(page.commands)
          + TextUpTo(lines, Min(i, n), Slots(totalLines, lineSpacing, pageHeight), size, customFont)
      {
        RenderSlot(page, lines, i, pageHeight, size, customFont);
        TextUpToStep(lines, i, n, Slots(totalLines, lineSpacing, pageHeight), size, customFont);
        i := i + 2;
      }
    }

    /** One iteration of `renderPageText`: the text of even slot `i`. */
    method RenderSlot(page: Page, lines: seq<string>, i: nat, pageHeight: real, size: real, customFont: PdfFont)
      requires i % 2 == 0 && i < |lines| && totalLines > 0
      modifies page
      ensures page.commands == old(page.commands)
        + SlotText(lines, i, Slots(totalLines, lineSpacing, pageHeight), size, customFont)
    {
      var textLine := lines[i / 2];
      if textLine != "" {
        var slotHeight := (pageHeight - TOP_MARGIN - BOTTOM_MARGIN) / totalLines as real;
        var slotTopY := pageHeight - TOP_MARGIN - i as real * slotHeight;
        var groupCenterY := slotTopY - slotHeight * 0.3;
        var baselineY := groupCenterY - lineSpacing;
        assert baselineY == SlotGuides(i, totalLines, lineSpacing, pageHeight).baselineY;
        DrawTextOrPlaceholder(page, textLine, baselineY, size, customFont);
      }
    }

    /** `addPageNumber`: the formatted number at the computed anchor, grey,
        in the page-number size. */
    method AddPageNumber(page: Page, currentPage: nat, totalPages: nat, pageWidth: real, pageHeight: real)
      modifies page
      ensures var text := FormatPageNumber(format, currentPage, totalPages);
        var size := layoutConfig.pageNumberFontSize;
        var p := CalculatePageNumberPosition(layoutConfig, pageWidth, pageHeight, text, size);
        page.commands == old(page.commands) + [Text(text, p.x, p.y, size, PAGE_NUMBER_COLOUR)]
    {
      var pageNumberText := FormatPageNumber(format, currentPage, totalPages);
      var size := layoutConfig.pageNumberFontSize;
      var position := CalculatePageNumberPosition(layoutConfig, pageWidth, pageHeight, pageNumberText, size);
      var _ := page.DrawText(pageNumberText, position.x, position.y, size, PAGE_NUMBER_COLOUR, STANDARD_FONT);
    }

    /** `createSinglePage`: a new page at the end of the document showing
        `pageContent`. */
    method CreateSinglePage(doc: Document, pageContent: PageContent, totalPages: nat, customFont: PdfFont,
                            pageWidth: real, pageHeight: real)
      returns (page: Page)
      modifies doc
      ensures fresh(page) && doc.pages == old(doc.pages) + [page]
      ensures page.commands == PageCommands(pageContent.textLines, pageContent.pageNumber, totalPages,
                                            customFont, pageWidth, pageHeight)
    {
      page := doc.AddPage(pageWidth, pageHeight);
      DrawPageGuidelines(page, pageContent, pageWidth, pageHeight);
      assert page.commands == GuidesUpTo(totalLines, Slots(totalLines, lineSpacing, pageHeight), pageWidth);
      RenderPageText(page, pageContent, customFont, pageWidth, pageHeight);
      if ShouldAddPageNumber(layoutConfig, pageContent.pageNumber) {
        AddPageNumber(page, pageContent.pageNumber, totalPages, pageWidth, pageHeight);
      }
    }

    /** `createPages`: one page per content, in order, for the first
        `min(contents, pageLimit)` contents; the rest are dropped. */
    method CreatePages(doc: Document, pageContents: seq<PageContent>, customFont: PdfFont,
                       pageWidth: real, pageHeight: real)
      returns (pages: seq<Page>)
      modifies doc
      ensures |pages| == Min(|pageContents|, pageLimit)
      ensures doc.pages == old(doc.pages) + pages
      ensures forall i | 0 <= i < |pages| :: fresh(pages[i])
      ensures forall i | 0 <= i < |pages| ::
        pages[i].commands == PageCommands(pageContents[i].textLines, pageContents[i].pageNumber, |pages|,
                                          customFont, pageWidth, pageHeight)
    {
      pages := [];
      var totalPages := Min(|pageContents|, pageLimit);
      for i := 0 to totalPages
        invariant |pages| == i
        invariant doc.pages == old(doc.pages) + pages
        invariant forall j | 0 <= j < i :: fresh(pages[j])
        invariant forall j | 0 <= j < i ::
          pages[j].commands == PageCommands(pageContents[j].textLines, pageContents[j].pageNumber, totalPages,
                                            customFont, pageWidth, pageHeight)
      {
        var page := CreateSinglePage(doc, pageContents[i], totalPages, customFont, pageWidth, pageHeight);
        pages := pages + [page];
      }
    }
  }
}
