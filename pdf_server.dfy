/** The server-side sheet utilities of lib/pdf-server-utils.ts (with the
    duplicate `wrapText` of lib/pdf-utils.ts): font metrics, the font size
    that fits the guides, line wrapping by measured width, the single-page
    practice sheet and the page-count estimate. */
module PdfServer {
  import opened Wrappers
  import opened Strings
  import opened Constants
  import opened Guidelines
  import opened TextPrep
  import opened LineWrap
  import opened TextDistribution

  // ---------------------------------------------------------------------
  // Font metrics
  // ---------------------------------------------------------------------

  /** What the font parser reports: the units per em and the OS/2 x-height,
      either of which may be missing. */
  datatype ParsedFont = ParsedFont(unitsPerEm: Option<real>, sxHeight: Option<real>)

  datatype FontMetrics = FontMetrics(upem: real, xHeight: real, calculatedFontSize: real, lineSpacing: real)

  /** Why loading a font's metrics failed. */
  datatype LoadError = ReadFailed | EmptyFile | ParseFailed | InvalidUnitsPerEm | InvalidXHeight

  /** The outcome of the first parse attempt that succeeded, if any. */
  function FirstSuccess(attempts: seq<Option<ParsedFont>>): (r: Option<ParsedFont>)
    ensures r.None? <==> forall k | 0 <= k < |attempts| :: attempts[k].None?
    ensures r.Some? ==> exists k | 0 <= k < |attempts| ::
      attempts[k] == r && forall j | 0 <= j < k :: attempts[j].None?
  {
    if attempts == [] then None
    else if attempts[0].Some? then attempts[0]
    else
      var r := FirstSuccess(attempts[1..]);
      assert r.Some? ==> exists k | 0 <= k < |attempts| ::
        attempts[k] == r && forall j | 0 <= j < k :: attempts[j].None?
      by {
        if r.Some? {
          var k :| 0 <= k < |attempts[1..]| && attempts[1..][k] == r
                   && forall j | 0 <= j < k :: attempts[1..][j].None?;
          assert attempts[k + 1] == r;
          forall j | 0 <= j < k + 1 ensures attempts[j].None? {
            if j > 0 { assert attempts[j] == attempts[1..][j - 1]; }
          }
        }
      }
      assert r.None? ==> forall k | 0 <= k < |attempts| :: attempts[k].None? by {
        if r.None? {
          forall k | 0 <= k < |attempts| ensures attempts[k].None? {
            if k > 0 { assert attempts[k] == attempts[1..][k - 1]; }
          }
        }
      }
      r
  }

  /** The parse-strategy loop: tries the attempts in order and stops at the
      first that succeeds. */
  method ParseFont(attempts: seq<Option<ParsedFont>>) returns (font: Option<ParsedFont>)
    ensures font == FirstSuccess(attempts)
  {
    font := None;
    var i := 0;
    while i < |attempts|
      invariant 0 <= i <= |attempts|
      invariant font.None? && FirstSuccess(attempts[i..]) == FirstSuccess(attempts)
    {
      if attempts[i].Some? {
        font := attempts[i];
        assert font == FirstSuccess(attempts[i..]);
        return;
      }
      assert attempts[i..][1..] == attempts[i + 1..];
      i := i + 1;
    }
  }

  /** `sxHeight || upem * 0.5`: a missing or zero x-height falls back to half
      the em; a negative one is kept. */
  function XHeightWithFallback(sxHeight: Option<real>, upem: real): real {
    if sxHeight.Some? && sxHeight.value != 0.0 then sxHeight.value else upem * 0.5
  }

  /** The checks of `loadFontMetrics` on a parsed font: the em must be
      positive, and so must the x-height after the fallback. */
  function ExtractMetrics(font: ParsedFont): (r: Result<FontMetrics, LoadError>)
    ensures r.Ok? <==> font.unitsPerEm.Some? && font.unitsPerEm.value > 0.0
                       && (font.sxHeight.None? || font.sxHeight.value >= 0.0)
    ensures r.Ok? ==> r.value.upem == font.unitsPerEm.value && r.value.xHeight > 0.0
                      && r.value.calculatedFontSize == 0.0 && r.value.lineSpacing == 0.0
    ensures r.Ok? && font.sxHeight.Some? && font.sxHeight.value > 0.0 ==> r.value.xHeight == font.sxHeight.value
    ensures r.Ok? && (font.sxHeight.None? || font.sxHeight.value == 0.0) ==> r.value.xHeight == r.value.upem * 0.5
    ensures r.Err? ==> r.error == (if font.unitsPerEm.None? || font.unitsPerEm.value <= 0.0
                                   then InvalidUnitsPerEm else InvalidXHeight)
  {
    if font.unitsPerEm.None? || font.unitsPerEm.value <= 0.0 then Err(InvalidUnitsPerEm)
    else
      var upem := font.unitsPerEm.value;
      var xHeight := XHeightWithFallback(font.sxHeight, upem);
      if xHeight <= 0.0 then Err(InvalidXHeight)
      else Ok(FontMetrics(upem, xHeight, 0.0, 0.0))
  }

  /** `loadFontMetrics`: `file` is the font file's bytes, `None` when it
      cannot be read, and `attempts` the outcomes of the parse strategies in
      order. */
  method LoadFontMetrics(file: Option<seq<bv8>>, attempts: seq<Option<ParsedFont>>)
    returns (r: Result<FontMetrics, LoadError>)
    ensures file.None? ==> r == Err(ReadFailed)
    ensures file == Some([]) ==> r == Err(EmptyFile)
    ensures file.Some? && file.value != [] && FirstSuccess(attempts).None? ==> r == Err(ParseFailed)
    ensures file.Some? && file.value != [] && FirstSuccess(attempts).Some? ==>
      r == ExtractMetrics(FirstSuccess(attempts).value)
  {
    if file.None? {
      return Err(ReadFailed);
    }
    if |file.value| == 0 {
      return Err(EmptyFile);
    }
    var font := ParseFont(attempts);
    if font.None? {
      return Err(ParseFailed);
    }
    r := ExtractMetrics(font.value);
  }

  /** The metric check of `validateFontFile`: the x-height falls back to half
      the em whenever it is missing or not positive, so a parsed font is
      valid exactly when its em is positive. */
  function ValidateMetrics(font: ParsedFont): (valid: bool)
    ensures valid <==> font.unitsPerEm.Some? && font.unitsPerEm.value > 0.0
  {
    var hasValidUnitsPerEm := font.unitsPerEm.Some? && font.unitsPerEm.value > 0.0;
    var hasValidXHeight := font.sxHeight.Some? && font.sxHeight.value > 0.0;
    var upem := if font.unitsPerEm.Some? then font.unitsPerEm.value else 0.0;
    var calculatedXHeight := if hasValidXHeight then font.sxHeight.value else upem * 0.5;
    hasValidUnitsPerEm && calculatedXHeight > 0.0
  }

  /** `validateFontFile`: true when the file is readable and non-empty, some
      parse attempt succeeds and the parsed metrics pass. */
  method ValidateFontFile(file: Option<seq<bv8>>, attempts: seq<Option<ParsedFont>>)
    returns (valid: bool)
    ensures valid <==> file.Some? && file.value != [] && FirstSuccess(attempts).Some?
                       && ValidateMetrics(FirstSuccess(attempts).value)
  {
    if file.None? || |file.value| == 0 {
      return false;
    }
    var font := ParseFont(attempts);
    if font.None? {
      return false;
    }
    valid := ValidateMetrics(font.value);
  }

  /** Metrics that load always validate; the converse fails exactly for a
      positive em with a negative x-height, which validation replaces by the
      fallback and loading rejects. */
  lemma LoadAndValidateAgree(font: ParsedFont)
    ensures ExtractMetrics(font).Ok? ==> ValidateMetrics(font)
    ensures ValidateMetrics(font) && ExtractMetrics(font).Err? <==>
      font.unitsPerEm.Some? && font.unitsPerEm.value > 0.0 && font.sxHeight.Some? && font.sxHeight.value < 0.0
  {
  }

  /** `calculateFontSize`: the guide spacing is a quarter of the preset's
      group height (the medium preset for an unknown id), and the font size
      makes the font's x-height span the two spacings of the x-height box. */
  function CalculateFontSize(metrics: FontMetrics, sizeId: string): (r: FontMetrics)
    requires metrics.xHeight != 0.0
    ensures r.upem == metrics.upem && r.xHeight == metrics.xHeight
    ensures r.lineSpacing == SizeConfigFor(sizeId).lineSpacing / 4.0 && r.lineSpacing > 0.0
    ensures r.calculatedFontSize * metrics.xHeight == 2.0 * r.lineSpacing * metrics.upem
    ensures metrics.upem > 0.0 && metrics.xHeight > 0.0 ==> r.calculatedFontSize > 0.0
  {
    var sizeConfig := SizeConfigFor(sizeId);
    var lineSpacing := sizeConfig.lineSpacing / 4.0;
    var xHeightInPdf := lineSpacing * 2.0;
    var calculatedFontSize := (xHeightInPdf / metrics.xHeight) * metrics.upem;
    metrics.(calculatedFontSize := calculatedFontSize, lineSpacing := lineSpacing)
  }

  // ---------------------------------------------------------------------
  // wrapText
  // ---------------------------------------------------------------------

  /** The lines still produced from `words` when `current` is pending: the
      first word of a line is taken unmeasured, and a later word is appended
      while the measured candidate fits, otherwise it starts a new line. */
  function WrapWords(words: seq<string>, current: string, measure: (string, real) -> real,
                     fontSize: real, maxWidth: real): seq<string>
    decreases |words|
  {
    if words == [] then Pending(current)
    else if current == "" then WrapWords(words[1..], words[0], measure, fontSize, maxWidth)
    else
      var testLine := current + " " + words[0];
      if measure(testLine, fontSize) <= maxWidth then WrapWords(words[1..], testLine, measure, fontSize, maxWidth)
      else [current] + WrapWords(words[1..], words[0], measure, fontSize, maxWidth)
  }

  /** The lines of one block. */
  function WrapBlock(block: string, measure: (string, real) -> real, fontSize: real, maxWidth: real): seq<string> {
    WrapWords(Split(block, ' '), "", measure, fontSize, maxWidth)
  }

  /** The lines of all blocks: each block's lines after the previous
      blocks' lines. */
  function WrapAll(texts: seq<string>, measure: (string, real) -> real, fontSize: real, maxWidth: real): seq<string> {
    if texts == [] then []
    else WrapAll(texts[..|texts| - 1], measure, fontSize, maxWidth)
         + WrapBlock(texts[|texts| - 1], measure, fontSize, maxWidth)
  }

  /** No line spans two blocks: wrapping two runs of blocks wraps each run
      on its own. */
  lemma {:induction false} WrapAllAppend(a: seq<string>, b: seq<string>, measure: (string, real) -> real,
                                         fontSize: real, maxWidth: real)
    ensures WrapAll(a + b, measure, fontSize, maxWidth)
         == WrapAll(a, measure, fontSize, maxWidth) + WrapAll(b, measure, fontSize, maxWidth)
    decreases |b|
  {
    if b == [] {
      assert a + b == a;
    } else {
      var init := b[..|b| - 1];
      assert (a + b)[..|a + b| - 1] == a + init;
      assert (a + b)[|a + b| - 1] == b[|b| - 1];
      WrapAllAppend(a, init, measure, fontSize, maxWidth);
    }
  }

  /** With no empty word, the lines are non-empty and joining them with
      single spaces gives back the pending line followed by the words. */
  lemma {:induction false} WrapWordsJoin(words: seq<string>, current: string, measure: (string, real) -> real,
                                         fontSize: real, maxWidth: real)
    requires NoEmptyLine(words)
    ensures NoEmptyLine(WrapWords(words, current, measure, fontSize, maxWidth))
    ensures Join(WrapWords(words, current, measure, fontSize, maxWidth), " ") == Join(Pending(current) + words, " ")
    decreases |words|
  {
    if words == [] {
      assert Pending(current) + words == Pending(current);
    } else {
      var word, rest := words[0], words[1..];
      assert words == [word] + rest;
      assert NoEmptyLine(rest) by {
        forall i | 0 <= i < |rest| ensures rest[i] != "" { assert rest[i] == words[i + 1]; }
      }
      if current == "" {
        WrapWordsJoin(rest, word, measure, fontSize, maxWidth);
        assert Pending(current) + words == [word] + rest;
      } else {
        var testLine := current + " " + word;
        assert Pending(current) + words == [current, word] + rest;
        if measure(testLine, fontSize) <= maxWidth {
          WrapWordsJoin(rest, testLine, measure, fontSize, maxWidth);
          JoinMerge(current, word, rest);
        } else {
          WrapWordsJoin(rest, word, measure, fontSize, maxWidth);
          var tail := WrapWords(rest, word, measure, fontSize, maxWidth);
          NoEmptyLineCons(current, tail);
          assert tail != [] by { assert Join(tail, " ") == Join([word] + rest, " "); }
          JoinCons(current, tail, " ");
          JoinCons(current, [word] + rest, " ");
          assert [current, word] + rest == [current] + ([word] + rest);
        }
      }
    }
  }

  /** A block whose space-separated words are all non-empty wraps into
      non-empty lines that join back to the block; an empty block gives no
      lines. */
  lemma WrapBlockJoin(block: string, measure: (string, real) -> real, fontSize: real, maxWidth: real)
    ensures block == "" ==> WrapBlock(block, measure, fontSize, maxWidth) == []
    ensures WordsNonEmpty(block) ==>
      NoEmptyLine(WrapBlock(block, measure, fontSize, maxWidth))
      && Join(WrapBlock(block, measure, fontSize, maxWidth), " ") == block
  {
    var words := Split(block, ' ');
    if block == "" {
      assert words == [""];
      assert WrapWords(words, "", measure, fontSize, maxWidth) == WrapWords([], "", measure, fontSize, maxWidth);
    }
    if WordsNonEmpty(block) {
      WrapWordsJoin(words, "", measure, fontSize, maxWidth);
      assert Pending("") + words == words;
      JoinSplit(block, ' ');
    }
  }

  /** Lines that fit or cannot be split: measured within `maxWidth`, or a
      single word. */
  predicate FitOrOneWord(line: string, measure: (string, real) -> real, fontSize: real, maxWidth: real) {
    measure(line, fontSize) <= maxWidth || ' ' !in line
  }

  /** A line exceeds the width only if it is a single word. */
  lemma {:induction false} WrapWordsFits(words: seq<string>, current: string, measure: (string, real) -> real,
                                         fontSize: real, maxWidth: real)
    requires forall i | 0 <= i < |words| :: ' ' !in words[i]
    requires FitOrOneWord(current, measure, fontSize, maxWidth)
    ensures forall line | line in WrapWords(words, current, measure, fontSize, maxWidth) ::
      FitOrOneWord(line, measure, fontSize, maxWidth)
    decreases |words|
  {
    if words != [] {
      var word, rest := words[0], words[1..];
      assert forall i | 0 <= i < |rest| :: ' ' !in rest[i] by {
        forall i | 0 <= i < |rest| ensures ' ' !in rest[i] { assert rest[i] == words[i + 1]; }
      }
      if current == "" {
        WrapWordsFits(rest, word, measure, fontSize, maxWidth);
      } else {
        var testLine := current + " " + word;
        if measure(testLine, fontSize) <= maxWidth {
          WrapWordsFits(rest, testLine, measure, fontSize, maxWidth);
        } else {
          WrapWordsFits(rest, word, measure, fontSize, maxWidth);
        }
      }
    }
  }

  /** Every line of every block fits or is a single word. */
  lemma {:induction false} WrapAllFits(texts: seq<string>, measure: (string, real) -> real, fontSize: real, maxWidth: real)
    ensures forall line | line in WrapAll(texts, measure, fontSize, maxWidth) ::
      FitOrOneWord(line, measure, fontSize, maxWidth)
  {
    if texts != [] {
      WrapAllFits(texts[..|texts| - 1], measure, fontSize, maxWidth);
      WrapWordsFits(Split(texts[|texts| - 1], ' '), "", measure, fontSize, maxWidth);
    }
  }

  /** A candidate line handed to the width callback: a non-empty line, a
      space and the next word. */
  predicate TwoWordsOrMore(q: string) {
    exists i | 0 < i < |q| :: q[i] == ' '
  }

  /** The candidate lines whose width is asked while `words` are wrapped
      with `current` pending, in the order they are asked. */
  function Candidates(words: seq<string>, current: string, measure: (string, real) -> real,
                      fontSize: real, maxWidth: real): seq<string>
    decreases |words|
  {
    if words == [] then []
    else if current == "" then Candidates(words[1..], words[0], measure, fontSize, maxWidth)
    else
      var testLine := current + " " + words[0];
      if measure(testLine, fontSize) <= maxWidth then [testLine] + Candidates(words[1..], testLine, measure, fontSize, maxWidth)
      else [testLine] + Candidates(words[1..], words[0], measure, fontSize, maxWidth)
  }

  /** The candidates asked for all blocks, block after block. */
  function CandidatesAll(texts: seq<string>, measure: (string, real) -> real, fontSize: real, maxWidth: real): seq<string> {
    if texts == [] then []
    else CandidatesAll(texts[..|texts| - 1], measure, fontSize, maxWidth)
         + Candidates(Split(texts[|texts| - 1], ' '), "", measure, fontSize, maxWidth)
  }

  /** Every candidate is a non-empty line, a space and a word. */
  lemma {:induction false} CandidatesTwoWords(words: seq<string>, current: string, measure: (string, real) -> real,
                                              fontSize: real, maxWidth: real)
    ensures forall k | 0 <= k < |Candidates(words, current, measure, fontSize, maxWidth)| ::
      TwoWordsOrMore(Candidates(words, current, measure, fontSize, maxWidth)[k])
    decreases |words|
  {
    if words != [] {
      if current == "" {
        CandidatesTwoWords(words[1..], words[0], measure, fontSize, maxWidth);
      } else {
        var testLine := current + " " + words[0];
        assert testLine[|current|] == ' ';
        var next := if measure(testLine, fontSize) <= maxWidth then testLine else words[0];
        CandidatesTwoWords(words[1..], next, measure, fontSize, maxWidth);
      }
    }
  }

  /** Every candidate of every block has two words or more. */
  lemma {:induction false} CandidatesAllTwoWords(texts: seq<string>, measure: (string, real) -> real,
                                                 fontSize: real, maxWidth: real)
    ensures forall k | 0 <= k < |CandidatesAll(texts, measure, fontSize, maxWidth)| ::
      TwoWordsOrMore(CandidatesAll(texts, measure, fontSize, maxWidth)[k])
  {
    if texts != [] {
      var init := texts[..|texts| - 1];
      CandidatesAllTwoWords(init, measure, fontSize, maxWidth);
      CandidatesTwoWords(Split(texts[|texts| - 1], ' '), "", measure, fontSize, maxWidth);
    }
  }

  /** The wrapping of `words` depends on the width callback only at its
      candidates: two callbacks that agree there give the same lines. */
  lemma {:induction false} WrapWordsLocal(words: seq<string>, current: string, m1: (string, real) -> real,
                                          m2: (string, real) -> real, fontSize: real, maxWidth: real)
    requires forall q | q in Candidates(words, current, m1, fontSize, maxWidth) :: m1(q, fontSize) == m2(q, fontSize)
    ensures WrapWords(words, current, m1, fontSize, maxWidth) == WrapWords(words, current, m2, fontSize, maxWidth)
    ensures Candidates(words, current, m1, fontSize, maxWidth) == Candidates(words, current, m2, fontSize, maxWidth)
    decreases |words|
  {
    if words != [] {
      if current == "" {
        WrapWordsLocal(words[1..], words[0], m1, m2, fontSize, maxWidth);
      } else {
        var testLine := current + " " + words[0];
        assert testLine in Candidates(words, current, m1, fontSize, maxWidth);
        var next := if m1(testLine, fontSize) <= maxWidth then testLine else words[0];
        assert Candidates(words, current, m1, fontSize, maxWidth)
            == [testLine] + Candidates(words[1..], next, m1, fontSize, maxWidth);
        WrapWordsLocal(words[1..], next, m1, m2, fontSize, maxWidth);
      }
    }
  }

  /** The wrapping of all blocks depends on the width callback only at the
      candidates it asks about. */
  lemma {:induction false} WrapAllLocal(texts: seq<string>, m1: (string, real) -> real, m2: (string, real) -> real,
                                        fontSize: real, maxWidth: real)
    requires forall q | q in CandidatesAll(texts, m1, fontSize, maxWidth) :: m1(q, fontSize) == m2(q, fontSize)
    ensures WrapAll(texts, m1, fontSize, maxWidth) == WrapAll(texts, m2, fontSize, maxWidth)
    ensures CandidatesAll(texts, m1, fontSize, maxWidth) == CandidatesAll(texts, m2, fontSize, maxWidth)
  {
    if texts != [] {
      var init := texts[..|texts| - 1];
      var words := Split(texts[|texts| - 1], ' ');
      WrapAllLocal(init, m1, m2, fontSize, maxWidth);
      WrapWordsLocal(words, "", m1, m2, fontSize, maxWidth);
    }
  }

  /** `wrapText`: the blocks' lines in order. `queries` lists the lines
      whose width the callback is asked for, in order: exactly the
      reference candidates, each of two words or more. */
  method WrapText(texts: seq<string>, measure: (string, real) -> real, fontSize: real, maxWidth: real)
    returns (wrappedLines: seq<string>, ghost queries: seq<string>)
    ensures wrappedLines == WrapAll(texts, measure, fontSize, maxWidth)
    ensures queries == CandidatesAll(texts, measure, fontSize, maxWidth)
    ensures forall k | 0 <= k < |queries| :: TwoWordsOrMore(queries[k])
  {
    wrappedLines := [];
    queries := [];
    for b := 0 to |texts|
      invariant wrappedLines == WrapAll(texts[..b], measure, fontSize, maxWidth)
      invariant queries == CandidatesAll(texts[..b], measure, fontSize, maxWidth)
    {
      var block := texts[b];
      var words := Split(block, ' ');
      var currentLine := "";
      ghost var before := wrappedLines;
      ghost var asked := queries;
      for w := 0 to |words|
        invariant wrappedLines + WrapWords(words[w..], currentLine, measure, fontSize, maxWidth)
               == before + WrapWords(words, "", measure, fontSize, maxWidth)
        invariant queries + Candidates(words[w..], currentLine, measure, fontSize, maxWidth)
               == asked + Candidates(words, "", measure, fontSize, maxWidth)
      {
        var word := words[w];
        assert words[w..][1..] == words[w + 1..];
        if currentLine == "" {
          currentLine := word;
          continue;
        }
        var testLine := currentLine + " " + word;
        queries := queries + [testLine];
        var textWidth := measure(testLine, fontSize);
        if textWidth <= maxWidth {
          currentLine := testLine;
        } else {
          wrappedLines := wrappedLines + [currentLine];
          currentLine := word;
        }
      }
      if currentLine != "" {
        wrappedLines := wrappedLines + [currentLine];
      }
      assert texts[..b + 1][..b] == texts[..b];
    }
    assert texts[..|texts|] == texts;
    CandidatesAllTwoWords(texts, measure, fontSize, maxWidth);
  }

  // ---------------------------------------------------------------------
  // The single-page practice sheet of generateHandwritingPDF
  // ---------------------------------------------------------------------

  /** What slot `i` of the sheet shows of `wrapped`, with `slot` giving
      each slot's guides: on an even slot, the line at half its index, if
      there is one. */
  function SheetText(wrapped: seq<string>, i: nat, slot: nat -> GuideYs, size: real, font: PdfFont): seq<Command> {
    if i % 2 == 0 && i / 2 < |wrapped| then
      TextOrPlaceholder(wrapped[i / 2], slot(i).baselineY, size, font)
    else []
  }

  /** Slots `0 .. n-1` of the sheet: each slot's guides, then its text. */
  function SheetUpTo(wrapped: seq<string>, n: nat, slot: nat -> GuideYs, pageWidth: real, size: real,
                     font: PdfFont): seq<Command>
  {
    if n == 0 then []
    else SheetUpTo(wrapped, n - 1, slot, pageWidth, size, font)
         + GuideCommands(slot(n - 1), pageWidth)
         + SheetText(wrapped, n - 1, slot, size, font)
  }

  /** What one slot adds of text: only an even slot `i` with a line at
      `i / 2` shows anything, on its own baseline, and it shows that line
      whenever the font encodes it. */
  lemma SheetTextSlot(wrapped: seq<string>, i: nat, slot: nat -> GuideYs, size: real, font: PdfFont)
    ensures forall c: Command | c in SheetText(wrapped, i, slot, size, font) ::
      && c.Text? && i % 2 == 0 && i / 2 < |wrapped|
      && c.y == slot(i).baselineY
      && (c.text == wrapped[i / 2] || c.text == PLACEHOLDER_TEXT)
    ensures i % 2 == 0 && i / 2 < |wrapped| && font.canEncode(wrapped[i / 2]) ==>
      Text(wrapped[i / 2], TEXT_X, slot(i).baselineY, size, TEXT_COLOUR) in SheetText(wrapped, i, slot, size, font)
  {
    if i % 2 == 0 && i / 2 < |wrapped| {
      var cmds := TextOrPlaceholder(wrapped[i / 2], slot(i).baselineY, size, font);
      assert forall c | c in cmds :: c == cmds[0];
    }
  }

  /** Every text in `cmds` is on the baseline of an even slot `2k` below
      `n`, showing wrapped line `k` or the placeholder. */
  ghost predicate TextsOnEvenSlots(cmds: seq<Command>, wrapped: seq<string>, n: nat, slot: nat -> GuideYs) {
    forall c: Command | c in cmds && c.Text? :: exists k: nat | 2 * k < n && k < |wrapped| ::
      c.y == slot(2 * k).baselineY && (c.text == wrapped[k] || c.text == PLACEHOLDER_TEXT)
  }

  /** Appending slot `n - 1` (its guides, then its text) to a sheet whose
      texts are on even slots below `n - 1` leaves them on even slots below
      `n`. */
  lemma SheetSlotStep(prev: seq<Command>, wrapped: seq<string>, n: nat, slot: nat -> GuideYs, pageWidth: real,
                      size: real, font: PdfFont)
    requires n > 0 && TextsOnEvenSlots(prev, wrapped, n - 1, slot)
    ensures TextsOnEvenSlots(prev + GuideCommands(slot(n - 1), pageWidth) + SheetText(wrapped, n - 1, slot, size, font),
                             wrapped, n, slot)
  {
    var guides := GuideCommands(slot(n - 1), pageWidth);
    var last := SheetText(wrapped, n - 1, slot, size, font);
    GuideCommandsShape(slot(n - 1), pageWidth);
    assert forall d | d in guides :: d.Line?;
    SheetTextSlot(wrapped, n - 1, slot, size, font);
    forall c: Command | c in prev + guides + last && c.Text?
      ensures exists k: nat | 2 * k < n && k < |wrapped| ::
        c.y == slot(2 * k).baselineY && (c.text == wrapped[k] || c.text == PLACEHOLDER_TEXT)
    {
      if c in prev {
        var k: nat :| 2 * k < n - 1 && k < |wrapped| && c.y == slot(2 * k).baselineY
                      && (c.text == wrapped[k] || c.text == PLACEHOLDER_TEXT);
      } else {
        assert c in last;
        var k: nat := (n - 1) / 2;
        assert 2 * k == n - 1;
      }
    }
  }

  /** Only even slots carry text: every text on the sheet is on the baseline
      of a slot `2k` below `n`, showing wrapped line `k` or the placeholder. */
  lemma {:induction false} SheetTextSound(wrapped: seq<string>, n: nat, slot: nat -> GuideYs, pageWidth: real,
                                          size: real, font: PdfFont)
    ensures TextsOnEvenSlots(SheetUpTo(wrapped, n, slot, pageWidth, size, font), wrapped, n, slot)
  {
    if n > 0 {
      SheetTextSound(wrapped, n - 1, slot, pageWidth, size, font);
      SheetSlotStep(SheetUpTo(wrapped, n - 1, slot, pageWidth, size, font), wrapped, n, slot, pageWidth, size, font);
    }
  }

  /** Every line `k` with `2k < n` that the font encodes is shown on the
      baseline of slot `2k`. */
  lemma {:induction false} SheetTextComplete(wrapped: seq<string>, n: nat, slot: nat -> GuideYs, pageWidth: real,
                                             size: real, font: PdfFont)
    ensures forall k: nat | 2 * k < n && k < |wrapped| && font.canEncode(wrapped[k]) ::
      Text(wrapped[k], TEXT_X, slot(2 * k).baselineY, size, TEXT_COLOUR) in SheetUpTo(wrapped, n, slot, pageWidth, size, font)
  {
    if n > 0 {
      SheetTextComplete(wrapped, n - 1, slot, pageWidth, size, font);
      SheetTextSlot(wrapped, n - 1, slot, size, font);
      var prev := SheetUpTo(wrapped, n - 1, slot, pageWidth, size, font);
      var guides := GuideCommands(slot(n - 1), pageWidth);
      var last := SheetText(wrapped, n - 1, slot, size, font);
      assert SheetUpTo(wrapped, n, slot, pageWidth, size, font) == prev + guides + last;
      SheetCompleteStep(prev, guides, last, wrapped, n, slot, size, font);
    }
  }

  /** The completeness step: the lines shown before slot `n - 1` stay shown,
      and slot `n - 1` adds its own line when it is even. */
  lemma SheetCompleteStep(prev: seq<Command>, guides: seq<Command>, last: seq<Command>,
                          wrapped: seq<string>, n: nat, slot: nat -> GuideYs, size: real, font: PdfFont)
    requires n > 0
    requires forall k: nat | 2 * k < n - 1 && k < |wrapped| && font.canEncode(wrapped[k]) ::
      Text(wrapped[k], TEXT_X, slot(2 * k).baselineY, size, TEXT_COLOUR) in prev
    requires (n - 1) % 2 == 0 && (n - 1) / 2 < |wrapped| && font.canEncode(wrapped[(n - 1) / 2]) ==>
      Text(wrapped[(n - 1) / 2], TEXT_X, slot(n - 1).baselineY, size, TEXT_COLOUR) in last
    ensures forall k: nat | 2 * k < n && k < |wrapped| && font.canEncode(wrapped[k]) ::
      Text(wrapped[k], TEXT_X, slot(2 * k).baselineY, size, TEXT_COLOUR) in prev + guides + last
  {
    forall k: nat | 2 * k < n && k < |wrapped| && font.canEncode(wrapped[k])
      ensures Text(wrapped[k], TEXT_X, slot(2 * k).baselineY, size, TEXT_COLOUR) in prev + guides + last
    {
      if 2 * k < n - 1 {
        assert Text(wrapped[k], TEXT_X, slot(2 * k).baselineY, size, TEXT_COLOUR) in prev;
      } else {
        assert 2 * k == n - 1 && (n - 1) / 2 == k && (n - 1) % 2 == 0;
        assert Text(wrapped[k], TEXT_X, slot(n - 1).baselineY, size, TEXT_COLOUR) in last;
      }
    }
  }

  /** Both halves together: the texts of the first `n` slots are exactly the
      lines `k` with `2k < n`, each on its slot's baseline (or replaced by the
      placeholder where the font cannot encode it). */
  lemma SheetTextOnEvenSlots(wrapped: seq<string>, n: nat, slot: nat -> GuideYs, pageWidth: real,
                             size: real, font: PdfFont)
    ensures var r := SheetUpTo(wrapped, n, slot, pageWidth, size, font);
      && (forall c: Command | c in r && c.Text? :: exists k: nat | 2 * k < n && k < |wrapped| ::
            c.y == slot(2 * k).baselineY && (c.text == wrapped[k] || c.text == PLACEHOLDER_TEXT))
      && (forall k: nat | 2 * k < n && k < |wrapped| && font.canEncode(wrapped[k]) ::
            Text(wrapped[k], TEXT_X, slot(2 * k).baselineY, size, TEXT_COLOUR) in r)
  {
    SheetTextSound(wrapped, n, slot, pageWidth, size, font);
    SheetTextComplete(wrapped, n, slot, pageWidth, size, font);
  }

  /** One iteration of the sheet loop: slot `i`'s guides and text. */
  method DrawSheetSlot(page: Page, wrapped: seq<string>, i: nat, totalLines: nat, spacing: real,
                       size: real, font: PdfFont)
    requires totalLines > 0
    modifies page
    ensures page.commands == old(page.commands)
      + GuideCommands(Slots(totalLines, spacing, page.height)(i), page.width)
      + SheetText(wrapped, i, Slots(totalLines, spacing, page.height), size, font)
  {
    var guidelines := Draw4ZoneGuidelines(page, i, totalLines, spacing, page.width, page.height);
    if i % 2 == 0 {
      var textIndex := i / 2;
      if textIndex < |wrapped| {
        DrawTextOrPlaceholder(page, wrapped[textIndex], guidelines.baselineY, size, font);
      }
    }
  }

  /** `options.customTexts || [...PRACTICE_TEXTS]`: the practice texts when
      no custom texts are given (an empty list counts as given). */
  function TextsToUse(customTexts: Option<seq<string>>): seq<string> {
    if customTexts.Some? then customTexts.value else PRACTICE_TEXTS
  }

  /** The commands of the practice sheet for metrics sized to `sizeId`: the
      texts wrapped to the width between the margins of an A4 page, laid on
      every slot of the preset. */
  function PracticeSheet(metrics: FontMetrics, sizeId: string, texts: seq<string>, font: PdfFont,
                         measure: (string, real) -> real): seq<Command>
  {
    var totalLines := SizeConfigFor(sizeId).totalLines;
    var wrapped := WrapAll(texts, measure, metrics.calculatedFontSize, A4_WIDTH - LEFT_MARGIN - RIGHT_MARGIN);
    SheetUpTo(wrapped, totalLines, Slots(totalLines, metrics.lineSpacing, A4_HEIGHT), A4_WIDTH,
              metrics.calculatedFontSize, font)
  }

  /** `generateHandwritingPDF`: loads the metrics, sizes the font to the
      preset, and draws the practice sheet on one new A4 page. `measure` is
      the embedded font's width at a size. */
  method GenerateHandwritingPDF(file: Option<seq<bv8>>, attempts: seq<Option<ParsedFont>>, sizeId: string,
                                customTexts: Option<seq<string>>, font: PdfFont, measure: (string, real) -> real)
    returns (r: Result<Page, LoadError>)
    ensures var loaded := LoadFontMetricsResult(file, attempts);
      && (r.Err? <==> loaded.Err?)
      && (r.Err? ==> r.error == loaded.error)
      && (r.Ok? ==>
            && fresh(r.value) && r.value.width == A4_WIDTH && r.value.height == A4_HEIGHT
            && r.value.commands == PracticeSheet(CalculateFontSize(loaded.value, sizeId), sizeId,
                                                 TextsToUse(customTexts), font, measure))
  {
    var fontMetrics := LoadFontMetrics(file, attempts);
    if fontMetrics.Err? {
      return Err(fontMetrics.error);
    }
    var calculatedMetrics := CalculateFontSize(fontMetrics.value, sizeId);
    var page := DrawSheetPage(calculatedMetrics, sizeId, TextsToUse(customTexts), font, measure);
    r := Ok(page);
  }

  /** The sheet part of `generateHandwritingPDF`, once the metrics are
      sized: a new A4 page of a new document with the practice sheet. */
  method DrawSheetPage(calculatedMetrics: FontMetrics, sizeId: string, textsToUse: seq<string>, font: PdfFont,
                       measure: (string, real) -> real)
    returns (page: Page)
    ensures fresh(page) && page.width == A4_WIDTH && page.height == A4_HEIGHT
    ensures page.commands == PracticeSheet(calculatedMetrics, sizeId, textsToUse, font, measure)
  {
    var doc := new Document();
    page := doc.AddPage(A4_WIDTH, A4_HEIGHT);
    var drawableWidth := page.width - LEFT_MARGIN - RIGHT_MARGIN;
    var wrappedLines, _ := WrapText(textsToUse, measure, calculatedMetrics.calculatedFontSize, drawableWidth);
    var sizeConfig := SizeConfigFor(sizeId);
    DrawPracticeSheet(page, wrappedLines, sizeConfig.totalLines, calculatedMetrics.lineSpacing,
                      calculatedMetrics.calculatedFontSize, font);
  }

  /** The drawing loop of `generateHandwritingPDF`: every slot's guides, and
      wrapped line `k` on even slot `2k`. */
  method DrawPracticeSheet(page: Page, wrapped: seq<string>, totalLines: nat, spacing: real,
                           size: real, font: PdfFont)
    requires totalLines > 0
    modifies page
    ensures page.commands == old(page.commands)
      + SheetUpTo(wrapped, totalLines, Slots(totalLines, spacing, page.height), page.width, size, font)
  {
    for i := 0 to totalLines
      invariant page.commands == old(page.commands)
        + SheetUpTo(wrapped, i, Slots(totalLines, spacing, page.height), page.width, size, font)
    {
      DrawSheetSlot(page, wrapped, i, totalLines, spacing, size, font);
    }
  }

  /** The result `LoadFontMetrics` computes, as a value. */
  function LoadFontMetricsResult(file: Option<seq<bv8>>, attempts: seq<Option<ParsedFont>>): Result<FontMetrics, LoadError> {
    if file.None? then Err(ReadFailed)
    else if file.value == [] then Err(EmptyFile)
    else if FirstSuccess(attempts).None? then Err(ParseFailed)
    else ExtractMetrics(FirstSuccess(attempts).value)
  }

  // ---------------------------------------------------------------------
  // estimatePageCount (server)
  // ---------------------------------------------------------------------

  datatype Confidence = High | Medium | Low

  /** `PageEstimate` */
  datatype PageEstimate = PageEstimate(
    estimatedPages: nat, exceedsLimit: bool, totalCharacters: nat,
    averageCharsPerPage: int, confidence: Confidence)

  /** Short texts are estimated with high confidence, long ones with low. */
  function ConfidenceFor(characterCount: nat): (c: Confidence)
    ensures c == High <==> characterCount < 1000
    ensures c == Low <==> characterCount > 10000
  {
    if characterCount < 1000 then High
    else if characterCount > 10000 then Low
    else Medium
  }

  /** The characters of one fallback page. */
  const FALLBACK_CHARS_PER_PAGE: nat := 2000

  /** `estimatePageCount` of the server: `estimated` is the distributor's
      estimate, `None` when the distributor raised. The fallback counts
      2000 characters a page of the blocks joined by spaces, at low
      confidence. */
  function EstimatePageCount(texts: seq<string>, estimated: Option<nat>, maxPages: int): (r: PageEstimate)
    ensures r.totalCharacters == |Join(texts, " ")|
    ensures r.exceedsLimit <==> r.estimatedPages > maxPages
    ensures estimated.Some? ==> r.estimatedPages == estimated.value && r.confidence == ConfidenceFor(r.totalCharacters)
    ensures estimated.None? ==> Covers(r.estimatedPages, r.totalCharacters, FALLBACK_CHARS_PER_PAGE) && r.confidence == Low
    ensures r.estimatedPages > 0 ==>
      var avg := r.totalCharacters as real / r.estimatedPages as real;
      r.averageCharsPerPage as real - 0.5 <= avg < r.averageCharsPerPage as real + 0.5
    ensures r.estimatedPages == 0 ==> r.averageCharsPerPage == 0
  {
    var combinedText := Join(texts, " ");
    var count := |combinedText|;
    match estimated
    case Some(pages) =>
      PageEstimate(pages, pages > maxPages, count,
                   if pages > 0 then Round(count as real / pages as real) else 0,
                   ConfidenceFor(count))
    case None =>
      var fallbackPages := PagesFor(count, FALLBACK_CHARS_PER_PAGE);
      PageEstimate(fallbackPages, fallbackPages > maxPages, count,
                   Round(count as real / fallbackPages as real), Low)
  }

  /** With a working distributor the estimate is its page count, at least
      one page, and never fewer pages for more normalised text. */
  lemma DistributorEstimate(d: TextDistributor, texts: seq<string>, more: seq<string>, maxPages: int)
    requires d.capacity.maxCharacters > 0
    requires |Preprocess(texts)| <= |Preprocess(more)|
    ensures var r := EstimatePageCount(texts, Some(d.EstimatePageCount(texts)), maxPages);
      r.estimatedPages >= 1
      && r.estimatedPages <= EstimatePageCount(more, Some(d.EstimatePageCount(more)), maxPages).estimatedPages
  {
    PagesForMonotone(|Preprocess(texts)|, |Preprocess(more)|, d.capacity.maxCharacters);
  }
}
