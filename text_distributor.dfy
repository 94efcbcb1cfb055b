/** The text distribution engine of lib/text-distributor.ts: pages of wrapped
    lines filled greedily from the sentences of the normalised input. */
module TextDistribution {
  import opened Wrappers
  import opened Strings
  import opened Constants
  import opened Fonts
  import opened TextPrep
  import opened LineWrap

  /** What one page can hold (lib/types/multi-page-pdf.ts). */
  datatype PageCapacity = PageCapacity(
    maxLines: nat, maxCharacters: nat, availableWidth: real,
    availableHeight: real, lineHeight: real)

  /** `calculatePageCapacity`: the preset's slot count, a character budget of
      `maxCharsPerLine` per slot, the fixed usable width, and the slot
      height. */
  function CalculatePageCapacity(sizeId: string, maxCharsPerLine: nat): (c: PageCapacity)
    ensures c.maxLines == SizeConfigFor(sizeId).totalLines && c.maxLines > 0
    ensures c.maxCharacters == c.maxLines * maxCharsPerLine
    ensures c.maxCharacters > 0 <==> maxCharsPerLine > 0
    ensures c.availableWidth == AVAILABLE_WIDTH
    ensures c.lineHeight > 0.0 && c.availableHeight == c.maxLines as real * c.lineHeight
  {
    var cfg := SizeConfigFor(sizeId);
    PageCapacity(cfg.totalLines, cfg.totalLines * maxCharsPerLine, AVAILABLE_WIDTH,
                 cfg.totalLines as real * cfg.lineSpacing, cfg.lineSpacing)
  }

  /** A page of wrapped text lines, filled in place by the distributor. */
  class PageContent {
    const pageNumber: nat
    var textLines: seq<string>
    var lineCount: nat
    var characterCount: nat

    /** `createEmptyPage` */
    constructor (pageNumber: nat)
      ensures this.pageNumber == pageNumber
      ensures textLines == [] && lineCount == 0 && characterCount == 0
    {
      this.pageNumber := pageNumber;
      textLines := [];
      lineCount := 0;
      characterCount := 0;
    }

    /** The line counter agrees with the lines. */
    predicate Valid()
      reads this
    {
      lineCount == |textLines|
    }

    /** The page's current fields, as a value. */
    function View(): PageView
      reads this
    {
      PageView(pageNumber, textLines, lineCount, characterCount)
    }
  }

  /** A snapshot of a page. */
  datatype PageView = PageView(pageNumber: nat, textLines: seq<string>, lineCount: nat, characterCount: nat)

  /** A blank page numbered `n`, as `createEmptyPage` makes it. */
  function Blank(n: nat): PageView {
    PageView(n, [], 0, 0)
  }

  /** The closed pages of a distribution: their snapshots, whether each was
      filled by a forced split, and the sentence first tried on each. */
  datatype Packing = Packing(views: seq<PageView>, forced: seq<bool>, heads: seq<string>)

  /** The pages of `a` followed by those of `b`. */
  function Glue(a: Packing, b: Packing): Packing {
    Packing(a.views + b.views, a.forced + b.forced, a.heads + b.heads)
  }

  /** Page `v` before the pages of `p`. */
  function Prepend(v: PageView, f: bool, h: string, p: Packing): Packing {
    Packing([v] + p.views, [f] + p.forced, [h] + p.heads)
  }

  /** Closing one more page after `a` and then the pages of `b`. */
  lemma GlueShift(a: Packing, v: PageView, f: bool, h: string, b: Packing)
    ensures Glue(a, Prepend(v, f, h, b)) == Glue(Packing(a.views + [v], a.forced + [f], a.heads + [h]), b)
  {
    AppendAssoc(a.views, [v], b.views);
    AppendAssoc(a.forced, [f], b.forced);
    AppendAssoc(a.heads, [h], b.heads);
  }

  /** The first sentence of a list, or the empty text. */
  function HeadOf(sentences: seq<string>): string {
    if sentences == [] then "" else sentences[0]
  }

  /** The number of sentences `SplitSentences` finds in the pages' lines,
      each page's lines joined by spaces. */
  function SentencesInPages(pages: seq<PageContent>): nat
    reads pages
  {
    if pages == [] then 0
    else
      SentencesInPages(pages[..|pages| - 1])
      + |SplitSentences(Join(pages[|pages| - 1].textLines, " "))|
  }

  /** `views` are the snapshots of `pages`, page by page. */
  predicate ViewsOf(pages: seq<PageContent>, views: seq<PageView>)
    reads pages
  {
    |views| == |pages| && forall k | 0 <= k < |pages| :: pages[k].View() == views[k]
  }

  lemma PushViewsOf(pages: seq<PageContent>, views: seq<PageView>, p: PageContent)
    requires ViewsOf(pages, views)
    ensures ViewsOf(pages + [p], views + [p.View()])
  {
  }

  /** No page object occurs twice in the list. */
  predicate Unaliased(pages: seq<PageContent>) {
    forall i, j | 0 <= i < j < |pages| :: pages[i] != pages[j]
  }

  /** Pages numbered 1, 2, ... in order are distinct objects. */
  lemma NumberedUnaliased(pages: seq<PageContent>, views: seq<PageView>)
    requires ViewsOf(pages, views)
    requires forall k | 0 <= k < |views| :: views[k].pageNumber == k + 1
    ensures Unaliased(pages)
  {
    forall i, j | 0 <= i < j < |pages| ensures pages[i] != pages[j] {
      assert pages[i].View().pageNumber == i + 1 && pages[j].View().pageNumber == j + 1;
    }
  }

  /** A page numbered after all pages of a numbered list is not in it. */
  lemma NotYetListed(pages: seq<PageContent>, views: seq<PageView>, p: PageContent)
    requires ViewsOf(pages, views)
    requires forall k | 0 <= k < |views| :: views[k].pageNumber == k + 1
    requires p.pageNumber == |pages| + 1
    ensures p !in pages
  {
    forall k | 0 <= k < |pages| ensures pages[k] != p {
      assert pages[k].View().pageNumber == views[k].pageNumber;
    }
  }

  /** All lines of the snapshots, page after page. */
  function ViewLines(views: seq<PageView>): seq<string> {
    if views == [] then [] else ViewLines(views[..|views| - 1]) + views[|views| - 1].textLines
  }

  lemma ViewLinesSnoc(views: seq<PageView>, v: PageView)
    ensures ViewLines(views + [v]) == ViewLines(views) + v.textLines
  {
    assert (views + [v])[..|views|] == views;
  }

  /** Replacing a run of strings by one with the same content keeps the
      content of the whole list. */
  lemma ContentSplice(a: seq<string>, x: seq<string>, y: seq<string>, b: seq<string>)
    requires Content(Concat(x)) == Content(Concat(y))
    ensures Content(Concat(a + x + b)) == Content(Concat(a + y + b))
  {
    ConcatAppend(a + x, b);
    ConcatAppend(a, x);
    ConcatAppend(a + y, b);
    ConcatAppend(a, y);
    ContentAppend(Concat(a) + Concat(x), Concat(b));
    ContentAppend(Concat(a), Concat(x));
    ContentAppend(Concat(a) + Concat(y), Concat(b));
    ContentAppend(Concat(a), Concat(y));
  }

  lemma AppendAssoc<T>(x: seq<T>, y: seq<T>, z: seq<T>)
    ensures x + (y + z) == x + y + z
  {
  }

  lemma ConcatSingle(s: string)
    ensures Concat([s]) == s
  {
    assert [s][1..] == [];
  }

  /** Adding the lines `w` of `s` to the current page `l` moves the content
      of `s` from the sentences to the page. */
  lemma AddStepContent(a: seq<string>, l: seq<string>, s: string, w: seq<string>, tail: seq<string>)
    requires Content(Concat(w)) == Content(s)
    ensures Content(Concat(a + (l + w) + tail)) == Content(Concat(a + l + ([s] + tail)))
  {
    ConcatSingle(s);
    ContentSplice(a + l, [s], w, tail);
    AppendAssoc(a, l, w);
    AppendAssoc(a + l, [s], tail);
  }

  /** Closing the current page `l` and opening an empty one moves no
      content. */
  lemma PushStepContent(a: seq<string>, l: seq<string>, rest: seq<string>)
    ensures Content(Concat(a + l + [] + rest)) == Content(Concat(a + l + rest))
  {
    assert a + l + [] == a + l;
  }

  /** What is left of a force-split sentence, as a list: nothing when the
      rest is missing or empty. */
  function RestList(rest: Option<string>): (r: seq<string>)
    ensures Content(Concat(r)) == if rest.Some? then Content(rest.value) else ""
  {
    if rest.Some? && rest.value != "" then
      ConcatSingle(rest.value);
      [rest.value]
    else []
  }

  /** Filling the empty current page with the lines of the first part of
      `s` and putting the rest back in place of `s` moves no content. */
  lemma SplitStepContent(a: seq<string>, lines: seq<string>, rest: Option<string>, s: string, tail: seq<string>)
    requires Content(Concat(lines)) + (if rest.Some? then Content(rest.value) else "") == Content(s)
    ensures Content(Concat(a + lines + [] + (RestList(rest) + tail))) == Content(Concat(a + [] + ([s] + tail)))
  {
    ConcatAppend(lines, RestList(rest));
    ContentAppend(Concat(lines), Concat(RestList(rest)));
    ConcatSingle(s);
    ContentSplice(a, [s], lines + RestList(rest), tail);
    var r := RestList(rest);
    assert a + lines + [] == a + lines;
    AppendAssoc(a + lines, r, tail);
    AppendAssoc(a, lines, r);
    assert a + [] == a;
    AppendAssoc(a, [s], tail);
  }

  /** The rest of a force-split sentence, put back in its place, keeps the
      sentences spaced. */
  lemma AllSpacedRestList(s: string, rest: Option<string>, tail: seq<string>)
    requires AllSpaced([s] + tail)
    requires Spaced(s) && rest.Some? ==> Spaced(rest.value)
    ensures AllSpaced(RestList(rest) + tail)
  {
    assert Spaced(([s] + tail)[0]);
    forall i | 0 <= i < |tail| ensures Spaced(tail[i]) {
      assert tail[i] == ([s] + tail)[i + 1];
    }
  }

  /** The content of the filed lines followed by everything not yet
      filed. */
  lemma FiledContent(filed: seq<string>, rest: seq<string>)
    ensures Content(Concat(filed + rest)) == Content(Concat(filed)) + Content(Concat(rest))
  {
    ConcatAppend(filed, rest);
    ContentAppend(Concat(filed), Concat(rest));
  }

  predicate AllSpaced(sentences: seq<string>) {
    forall i | 0 <= i < |sentences| :: Spaced(sentences[i])
  }

  /** The distribution statistics: total characters and the rounded
      per-page averages of characters and lines. */
  datatype DistributionStats = DistributionStats(
    totalCharacters: nat, averageCharsPerPage: int, linesPerPage: int)

  /** `Math.round`: the nearest integer, halves rounded up. */
  function Round(x: real): (r: int)
    ensures r as real - 0.5 <= x < r as real + 0.5
  {
    (x + 0.5).Floor
  }

  /** An average of at most `m` per item rounds to at most `m`. */
  lemma RoundedAverageBound(t: nat, n: nat, m: nat)
    requires n > 0 && t <= n * m
    ensures Round(t as real / n as real) <= m
  {
    var q := t as real / n as real;
    assert q * n as real == t as real;
    assert (n * m) as real == n as real * m as real;
    assert (m as real - q) * n as real >= 0.0;
    assert q <= m as real;
  }

  /** The sum of the pages' character counters. */
  function TotalCharacters(pages: seq<PageContent>): nat
    reads pages
  {
    if pages == [] then 0 else TotalCharacters(pages[..|pages| - 1]) + pages[|pages| - 1].characterCount
  }

  /** The sum of the pages' line counters. */
  function TotalLines(pages: seq<PageContent>): nat
    reads pages
  {
    if pages == [] then 0 else TotalLines(pages[..|pages| - 1]) + pages[|pages| - 1].lineCount
  }

  /** `calculateDistributionStats` */
  function CalculateDistributionStats(pages: seq<PageContent>): (s: DistributionStats)
    reads pages
    ensures s.totalCharacters == TotalCharacters(pages)
    ensures |pages| == 0 ==> s.averageCharsPerPage == 0 && s.linesPerPage == 0
    ensures |pages| > 0 ==>
      var avg := TotalCharacters(pages) as real / |pages| as real;
      s.averageCharsPerPage as real - 0.5 <= avg < s.averageCharsPerPage as real + 0.5
    ensures |pages| > 0 ==>
      var avgL := TotalLines(pages) as real / |pages| as real;
      s.linesPerPage as real - 0.5 <= avgL < s.linesPerPage as real + 0.5
  {
    var n := |pages|;
    var avgChars := if n > 0 then TotalCharacters(pages) as real / n as real else 0.0;
    var avgLines := if n > 0 then TotalLines(pages) as real / n as real else 0.0;
    DistributionStats(TotalCharacters(pages), Round(avgChars), Round(avgLines))
  }

  /** `n` pages of `perPage` characters are the fewest, but at least one,
      that hold `length` characters. */
  predicate Covers(n: nat, length: nat, perPage: nat) {
    n >= 1 && length <= n * perPage && (n == 1 || (n - 1) * perPage < length)
  }

  /** `max(1, ceil(length / perPage))` */
  function PagesFor(length: nat, perPage: nat): (n: nat)
    requires perPage > 0
    ensures Covers(n, length, perPage)
  {
    if length == 0 then 1 else (length + perPage - 1) / perPage
  }

  /** More text never needs fewer pages. */
  lemma PagesForMonotone(a: nat, b: nat, perPage: nat)
    requires perPage > 0 && a <= b
    ensures PagesFor(a, perPage) <= PagesFor(b, perPage)
  {
    var na := PagesFor(a, perPage);
    var nb := PagesFor(b, perPage);
    if na > 1 {
      assert (na - 1) * perPage < nb * perPage;
      MulCancel(na - 1, nb, perPage);
    }
  }

  lemma MulCancel(x: nat, y: nat, k: nat)
    requires x * k < y * k
    ensures x < y
  {
  }

  /** The result of `distributeText`. */
  datatype TextDistributionResult = TextDistributionResult(
    pages: seq<PageContent>, totalPages: nat, truncatedContent: bool, stats: DistributionStats)

  /** The distributor for one font size. `customMaxLines` is the optional
      override of `maxLinesPerPage` in the custom settings, and
      `maxCharsPerLine` the configured characters per line. */
  class TextDistributor {
    const fontSize: FontSize
    const customMaxLines: Option<nat>
    const maxCharsPerLine: nat
    const maxLinesPerPage: nat :=
      if customMaxLines.Some? then customMaxLines.value else SizeConfigFor(fontSize.id).totalLines
    const capacity: PageCapacity := CalculatePageCapacity(fontSize.id, maxCharsPerLine)

    constructor (fontSize: FontSize, customMaxLines: Option<nat>, maxCharsPerLine: nat)
      ensures this.fontSize == fontSize && this.customMaxLines == customMaxLines
      ensures this.maxCharsPerLine == maxCharsPerLine
    {
      this.fontSize := fontSize;
      this.customMaxLines := customMaxLines;
      this.maxCharsPerLine := maxCharsPerLine;
    }

    /** `estimatePageCount`: pages needed for the normalised text at the
        character budget, at least one. */
    function EstimatePageCount(texts: seq<string>): (n: nat)
      requires capacity.maxCharacters > 0
      ensures Covers(n, |Preprocess(texts)|, capacity.maxCharacters)
    {
      PagesFor(|Preprocess(texts)|, capacity.maxCharacters)
    }

    /** `wrapTextToLines`: greedy wrapping at the usable width. */
    method WrapTextToLines(text: string) returns (lines: seq<string>)
      ensures lines == Wrap(text, fontSize.size)
      ensures WordsNonEmpty(text) ==> NoEmptyLine(lines) && Join(lines, " ") == text
      ensures Content(Concat(lines)) == Content(text)
      ensures FitOrSingleWord(lines, fontSize.size)
    {
      lines := WrapWords(Split(text, ' '), fontSize.size);
      assert lines == Wrap(text, fontSize.size);
      assert Content(Concat(lines)) == Content(text) && FitOrSingleWord(lines, fontSize.size) by {
        WrapContent(text, fontSize.size);
        WrapFits(text, fontSize.size);
      }
      if WordsNonEmpty(text) {
        WrapJoin(text, fontSize.size);
      }
    }

    /** The word loop of `wrapTextToLines`: a word joins the pending line
        while the line still fits the width, otherwise the pending line (or
        the lone word that does not fit) is emitted. */
    method WrapWords(words: seq<string>, size: nat) returns (lines: seq<string>)
      ensures lines == WrapFrom(words, "", size)
    {
      var availableWidth := capacity.availableWidth;
      assert availableWidth == AVAILABLE_WIDTH;
      lines := [];
      var currentLine := "";
      for i := 0 to |words|
        invariant lines + WrapFrom(words[i..], currentLine, size) == WrapFrom(words, "", size)
      {
        var word := words[i];
        assert words[i..][0] == word && words[i..][1..] == words[i + 1..];
        var testLine := if currentLine != "" then currentLine + " " + word else word;
        if Width(|testLine|, size) <= availableWidth {
          currentLine := testLine;
        } else if currentLine != "" {
          lines := lines + [currentLine];
          currentLine := word;
        } else {
          lines := lines + [word];
        }
      }
      assert words[|words|..] == [];
      if currentLine != "" {
        lines := lines + [currentLine];
      }
    }

    /** `canAddSentenceToPage`: both the line and the character budget still
        hold once the sentence is added. */
    predicate CanAddSentenceToPage(page: PageContent, sentence: string)
      reads page
    {
      && page.lineCount + |Wrap(sentence, fontSize.size)| <= maxLinesPerPage
      && page.characterCount + |sentence| <= capacity.maxCharacters
    }

    /** `addSentenceToPage`: appends the wrapped lines and updates both
        counters; earlier lines are kept. */
    method AddSentenceToPage(page: PageContent, sentence: string)
      modifies page
      ensures page.textLines == old(page.textLines) + Wrap(sentence, fontSize.size)
      ensures page.lineCount == old(page.lineCount) + |Wrap(sentence, fontSize.size)|
      ensures page.characterCount == old(page.characterCount) + |sentence|
    {
      var lines := WrapTextToLines(sentence);
      page.textLines := page.textLines + lines;
      page.lineCount := page.lineCount + |lines|;
      page.characterCount := page.characterCount + |sentence|;
    }

    /** `forceSplitSentence`: the word loop takes leading words while their
        join fits and stops at the first that does not. */
    method ForceSplitSentence(sentence: string, maxChars: nat) returns (first: string, rest: Option<string>)
      ensures (first, rest) == ForceSplit(sentence, maxChars)
      ensures |first| <= maxChars
      ensures |sentence| <= maxChars ==> first == sentence && rest.None?
      ensures |sentence| > maxChars ==> rest.Some?
      ensures |sentence| > maxChars ==>
        first + " " + rest.value == sentence || (first == sentence[..maxChars] && rest.value == sentence[maxChars..])
      ensures maxChars > 0 && |sentence| > maxChars ==> first != "" && |rest.value| < |sentence|
    {
      ForceSplitParts(sentence, maxChars);
      if maxChars > 0 && |sentence| > maxChars {
        ForceSplitShrinks(sentence, maxChars);
      }
      if |sentence| <= maxChars {
        return sentence, None;
      }
      var words := Split(sentence, ' ');
      var firstPart, remainingWords := TakeFittingWords(words, maxChars);
      if |firstPart| == 0 {
        firstPart := sentence[..maxChars];
        return firstPart, Some(sentence[maxChars..]);
      }
      var secondPart := if |remainingWords| > 0 then Some(Join(remainingWords, " ")) else None;
      return firstPart, secondPart;
    }

    /** The word loop of `forceSplitSentence`: leading words are taken while
        their join still fits `maxChars`, and the loop stops at the first
        that does not. */
    method TakeFittingWords(words: seq<string>, maxChars: nat) returns (firstPart: string, remainingWords: seq<string>)
      ensures var k := FitCount(words, maxChars, 0);
        firstPart == (if k == 0 then "" else Join(words[..k], " ")) && remainingWords == words[k..]
    {
      firstPart := "";
      remainingWords := words;
      var i := 0;
      while i < |words|
        invariant 0 <= i <= |words|
        invariant FitCount(words, maxChars, i) == FitCount(words, maxChars, 0)
        invariant firstPart == (if i == 0 then "" else Join(words[..i], " "))
        invariant remainingWords == words[i..]
      {
        var testPart := Join(words[..i + 1], " ");
        if |testPart| <= maxChars {
          assert FitCount(words, maxChars, i) == FitCount(words, maxChars, i + 1);
          firstPart := testPart;
          remainingWords := words[i + 1..];
          i := i + 1;
        } else {
          break;
        }
      }
    }

    /** The forced branch of `distributeToPages`: the sentence is split at the
        character budget and its first part fills the page, which had no
        lines. */
    method AddSplitSentence(page: PageContent, sentence: string) returns (first: string, rest: Option<string>)
      requires page.textLines == [] && page.Valid()
      modifies page
      ensures (first, rest) == ForceSplit(sentence, capacity.maxCharacters)
      ensures page.textLines == Wrap(first, fontSize.size) && page.Valid()
      ensures page.characterCount == old(page.characterCount) + |first|
      ensures |first| <= capacity.maxCharacters
      ensures Content(Concat(page.textLines)) + (if rest.Some? then Content(rest.value) else "")
              == Content(sentence)
      ensures Spaced(sentence) && capacity.maxCharacters > 0 ==> page.textLines != []
      ensures Spaced(sentence) && rest.Some? ==> Spaced(rest.value)
    {
      first, rest := ForceSplitSentence(sentence, capacity.maxCharacters);
      ForceSplitContent(sentence, capacity.maxCharacters);
      var m := capacity.maxCharacters;
      if Spaced(sentence) && rest.Some? {
        if m > 0 {
          ForceSplitSpaced(sentence, m);
        } else {
          assert first == "";
          assert (" " + rest.value)[0] == ' ';
          assert rest.value == sentence[0..];
        }
      }
      if Spaced(sentence) && m > 0 {
        if |sentence| > m {
          ForceSplitSpaced(sentence, m);
        }
        SpacedWrapsToLines(first, fontSize.size);
      }
      WrapContent(first, fontSize.size);
      AddSentenceToPage(page, first);
    }

    /** The end of the forced branch of `distributeToPages`: a non-empty rest
        takes the place of the split sentence, otherwise the distributor
        moves on to the next sentence. */
    method PutBackRest(sentences: array<string>, i: nat, rest: Option<string>) returns (next: nat)
      requires i < sentences.Length
      modifies sentences
      ensures next <= sentences.Length
      ensures sentences[next..] == RestList(rest) + old(sentences[i + 1..])
      ensures next == if rest.Some? && rest.value != "" then i else i + 1
      ensures sentences[..i] == old(sentences[..i])
    {
      if rest.Some? && rest.value != "" {
        sentences[i] := rest.value;
        next := i;
      } else {
        next := i + 1;
      }
    }

    /** Every page is numbered by its position and keeps its line counter;
        a page that was not force-split stays within both budgets. */
    predicate WithinBudget(pages: seq<PageContent>, forced: seq<bool>)
      reads pages
    {
      && |forced| == |pages|
      && forall k | 0 <= k < |pages| ::
           && pages[k].pageNumber == k + 1 && pages[k].Valid()
           && (!forced[k] ==> pages[k].characterCount <= capacity.maxCharacters
                              && pages[k].lineCount <= maxLinesPerPage)
    }

    /** Every page stays within the character budget. */
    predicate CharsWithin(pages: seq<PageContent>)
      reads pages
    {
      forall k | 0 <= k < |pages| :: pages[k].characterCount <= capacity.maxCharacters
    }

    /** Every page holds at least one line. */
    predicate NoEmptyPage(pages: seq<PageContent>)
      reads pages
    {
      forall k | 0 <= k < |pages| :: pages[k].textLines != []
    }

    /** What `DistributeToPages` keeps of a closed page: the counter agrees
        with the lines; a page that was not force-split is within both
        budgets; for spaced sentences every page is within the character
        budget and, with a positive budget, not empty. */
    predicate ClosedPage(v: PageView, forced: bool, spaced: bool) {
      && v.lineCount == |v.textLines|
      && (!forced ==> v.characterCount <= capacity.maxCharacters && v.lineCount <= maxLinesPerPage)
      && (spaced ==> v.characterCount <= capacity.maxCharacters)
      && (spaced && capacity.maxCharacters > 0 ==> v.textLines != [])
    }

    predicate ClosedPages(views: seq<PageView>, forced: seq<bool>, spaced: bool) {
      && |forced| == |views|
      && forall k | 0 <= k < |views| :: views[k].pageNumber == k + 1 && ClosedPage(views[k], forced[k], spaced)
    }

    lemma PushClosed(views: seq<PageView>, forced: seq<bool>, v: PageView, f: bool, spaced: bool)
      requires ClosedPages(views, forced, spaced)
      requires v.pageNumber == |views| + 1 && ClosedPage(v, f, spaced)
      ensures ClosedPages(views + [v], forced + [f], spaced)
    {
    }

    /** The closed pages, read through their snapshots. */
    lemma ClosedPagesBudget(pages: seq<PageContent>, views: seq<PageView>, forced: seq<bool>, spaced: bool)
      requires ViewsOf(pages, views) && ClosedPages(views, forced, spaced)
      ensures WithinBudget(pages, forced)
      ensures spaced ==> CharsWithin(pages)
      ensures spaced && capacity.maxCharacters > 0 ==> NoEmptyPage(pages)
    {
      forall k | 0 <= k < |pages|
        ensures pages[k].pageNumber == k + 1 && pages[k].Valid()
        ensures !forced[k] ==> pages[k].characterCount <= capacity.maxCharacters
                               && pages[k].lineCount <= maxLinesPerPage
        ensures spaced ==> pages[k].characterCount <= capacity.maxCharacters
        ensures spaced && capacity.maxCharacters > 0 ==> pages[k].textLines != []
      {
        assert pages[k].View() == views[k];
      }
    }

    /** The test of `canAddSentenceToPage` on a page whose fields are `v`:
        both budgets still hold once `s` is added. */
    predicate Fits(v: PageView, s: string) {
      && v.lineCount + |Wrap(s, fontSize.size)| <= maxLinesPerPage
      && v.characterCount + |s| <= capacity.maxCharacters
    }

    /** How the pages were filled. `heads[k]` is the sentence, as it stood
        then, that was tried first on page `k`. A page that was not
        force-split begins with the lines of its head, and the head of the
        page after it did not fit it: a page is closed only when the next
        sentence does not fit. A force-split page of spaced sentences holds
        exactly the lines of the first part of its head, which did not fit
        an empty page. */
    ghost predicate Greedy(views: seq<PageView>, forced: seq<bool>, heads: seq<string>, spaced: bool) {
      && |forced| == |views| && |heads| == |views|
      && (forall k | 0 <= k < |views| :: !forced[k] ==> Wrap(heads[k], fontSize.size) <= views[k].textLines)
      && (forall k | 0 <= k < |views| - 1 :: !forced[k] ==> !Fits(views[k], heads[k + 1]))
      && (forall k | 0 <= k < |views| :: forced[k] && spaced ==>
            && views[k].textLines == Wrap(ForceSplit(heads[k], capacity.maxCharacters).0, fontSize.size)
            && !Fits(PageView(k + 1, [], 0, 0), heads[k]))
    }

    /** Page `v` with the lines of `s` added, as `addSentenceToPage` leaves
        it. */
    function Added(v: PageView, s: string): PageView {
      PageView(v.pageNumber, v.textLines + Wrap(s, fontSize.size),
               v.lineCount + |Wrap(s, fontSize.size)|, v.characterCount + |s|)
    }

    /** The reference packing, one sentence at a time, of what is left of
        `distributeToPages` when the open page is `cur` with head `head`,
        `closed` pages are closed and `rem` is unread. A sentence that fits
        is added to the open page; otherwise a page with lines is closed and
        a blank one opened with that sentence as its head; otherwise the
        blank page takes the first part of the split sentence and is closed,
        and its rest is read next. At the end the open page is closed when
        it has lines. */
    function PackFrom(rem: seq<string>, cur: PageView, head: string, closed: nat, limit: nat): (p: Packing)
      decreases limit - closed, |rem|
      ensures |p.views| == |p.forced| == |p.heads|
    {
      if rem == [] || closed >= limit then
        if cur.textLines != [] then Packing([cur], [false], [head]) else Packing([], [], [])
      else if Fits(cur, rem[0]) then
        PackFrom(rem[1..], Added(cur, rem[0]), head, closed, limit)
      else if cur.textLines != [] then
        Prepend(cur, false, head, PackFrom(rem, Blank(closed + 2), rem[0], closed + 1, limit))
      else
        var split := ForceSplit(rem[0], capacity.maxCharacters);
        var next := RestList(split.1) + rem[1..];
        Prepend(Added(cur, split.0), true, head, PackFrom(next, Blank(closed + 2), HeadOf(next), closed + 1, limit))
    }

    /** The reference packing of `sentences` into at most `limit` pages. */
    function Pack(sentences: seq<string>, limit: nat): Packing {
      PackFrom(sentences, Blank(1), HeadOf(sentences), 0, limit)
    }

    /** The pages closed so far, `done`, followed by the reference packing
        of the rest, give the packing `goal` of all sentences. */
    ghost predicate Tied(done: Packing, rem: seq<string>, cur: PageView, head: string, limit: nat, goal: Packing) {
      Glue(done, PackFrom(rem, cur, head, |done.views|, limit)) == goal
    }

    /** The fitting branch: the sentence joins the open page. */
    lemma TiedAdd(done: Packing, rem: seq<string>, cur: PageView, head: string, limit: nat, goal: Packing)
      requires Tied(done, rem, cur, head, limit, goal)
      requires rem != [] && |done.views| < limit && Fits(cur, rem[0])
      ensures Tied(done, rem[1..], Added(cur, rem[0]), head, limit, goal)
    {
    }

    /** The closing branch: the open page is closed with its head, and a
        blank page is opened with the sentence that did not fit as its
        head. */
    lemma TiedClose(views: seq<PageView>, forced: seq<bool>, heads: seq<string>, rem: seq<string>, s: string,
                    cur: PageView, head: string, limit: nat, goal: Packing, next: PageView)
      requires Tied(Packing(views, forced, heads), rem, cur, head, limit, goal)
      requires rem != [] && rem[0] == s && |views| < limit && !Fits(cur, s) && cur.textLines != []
      requires next == Blank(|views| + 2)
      ensures Tied(Packing(views + [cur], forced + [false], heads + [head]), rem, next, s, limit, goal)
    {
      GlueShift(Packing(views, forced, heads), cur, false, head, PackFrom(rem, next, s, |views| + 1, limit));
    }

    /** The forced branch: the blank page takes the first part of the split
        sentence and is closed; the rest is read next. */
    lemma TiedForced(views: seq<PageView>, forced: seq<bool>, heads: seq<string>, rem: seq<string>,
                     cur: PageView, head: string, limit: nat, goal: Packing,
                     filled: PageView, later: seq<string>, next: PageView, nextHead: string)
      requires Tied(Packing(views, forced, heads), rem, cur, head, limit, goal)
      requires rem != [] && |views| < limit && !Fits(cur, rem[0]) && cur.textLines == []
      requires filled == Added(cur, ForceSplit(rem[0], capacity.maxCharacters).0)
      requires later == RestList(ForceSplit(rem[0], capacity.maxCharacters).1) + rem[1..]
      requires next == Blank(|views| + 2) && nextHead == HeadOf(later)
      ensures Tied(Packing(views + [filled], forced + [true], heads + [head]), later, next, nextHead, limit, goal)
    {
      GlueShift(Packing(views, forced, heads), filled, true, head, PackFrom(later, next, nextHead, |views| + 1, limit));
    }

    /** After the loop: the open page is closed when it has lines. */
    lemma TiedFinish(views: seq<PageView>, forced: seq<bool>, heads: seq<string>, rem: seq<string>,
                     cur: PageView, head: string, limit: nat, goal: Packing)
      requires Tied(Packing(views, forced, heads), rem, cur, head, limit, goal)
      requires rem == [] || |views| >= limit
      ensures cur.textLines != [] ==> Packing(views + [cur], forced + [false], heads + [head]) == goal
      ensures cur.textLines == [] ==> Packing(views, forced, heads) == goal
    {
      if cur.textLines == [] {
        assert Glue(Packing(views, forced, heads), Packing([], [], [])) == Packing(views, forced, heads);
      }
    }

    /** `canAddSentenceToPage` is `Fits` on the page's fields. */
    lemma CanAddIsFits(page: PageContent, s: string)
      ensures CanAddSentenceToPage(page, s) == Fits(page.View(), s)
    {
    }

    /** Two sentences that fit one page together share it: they are never
        put on a page each. */
    lemma PackTwoOnOnePage(a: string, b: string, limit: nat)
      requires limit >= 1 && Fits(Blank(1), a) && Fits(Added(Blank(1), a), b)
      ensures var page := Added(Added(Blank(1), a), b);
        Pack([a, b], limit) == if page.textLines != [] then Packing([page], [false], [a]) else Packing([], [], [])
    {
      var page := Added(Added(Blank(1), a), b);
      assert [a, b][1..] == [b] && [b][1..] == [];
      assert PackFrom([b], Added(Blank(1), a), a, 0, limit) == PackFrom([], page, a, 0, limit);
    }

    /** The sentence at `index`, or none (the empty text) past the end. */
    ghost function HeadAt(sentences: array<string>, index: nat): string
      reads sentences
    {
      if index < sentences.Length then sentences[index] else ""
    }

    /** The page being filled and its head: a page nothing was tried on yet
        is blank and its head is the next sentence; afterwards the page
        begins with its head's lines (non-empty ones, for spaced sentences).
        The head did not fit the last closed page unless that page was
        force-split. */
    ghost predicate Opening(current: PageContent, isNew: bool, head: string, sentences: array<string>,
                            index: nat, views: seq<PageView>, forced: seq<bool>, spaced: bool)
      reads current, sentences
    {
      && (isNew ==> current.textLines == [] && current.lineCount == 0 && current.characterCount == 0)
      && (isNew && index < sentences.Length ==> head == sentences[index])
      && (!isNew ==> Wrap(head, fontSize.size) <= current.textLines)
      && (spaced && !isNew ==> current.textLines != [])
      && (|views| > 0 && |forced| == |views| && !forced[|views| - 1] ==> !Fits(views[|views| - 1], head))
    }

    /** The page after the sentence was added to it. */
    lemma OpenedAfterAdd(current: PageContent, head: string, sentences: array<string>, index: nat,
                         views: seq<PageView>, forced: seq<bool>, spaced: bool)
      requires Wrap(head, fontSize.size) <= current.textLines
      requires spaced ==> current.textLines != []
      requires |views| > 0 && |forced| == |views| && !forced[|views| - 1] ==> !Fits(views[|views| - 1], head)
      ensures Opening(current, false, head, sentences, index, views, forced, spaced)
    {
    }

    /** A blank page opened with the next sentence as its head. */
    lemma OpenedBlank(next: PageContent, head: string, sentences: array<string>, index: nat,
                      views: seq<PageView>, forced: seq<bool>, spaced: bool)
      requires next.textLines == [] && next.lineCount == 0 && next.characterCount == 0
      requires index < sentences.Length ==> head == sentences[index]
      requires |views| > 0 && |forced| == |views| && !forced[|views| - 1] ==> !Fits(views[|views| - 1], head)
      ensures Opening(next, true, head, sentences, index, views, forced, spaced)
    {
    }

    /** Closing page `v` whose head is `h`. */
    lemma PushGreedy(views: seq<PageView>, forced: seq<bool>, heads: seq<string>, spaced: bool,
                     v: PageView, f: bool, h: string)
      requires Greedy(views, forced, heads, spaced)
      requires |views| > 0 && !forced[|views| - 1] ==> !Fits(views[|views| - 1], h)
      requires !f ==> Wrap(h, fontSize.size) <= v.textLines
      requires f && spaced ==>
        v.textLines == Wrap(ForceSplit(h, capacity.maxCharacters).0, fontSize.size)
        && !Fits(PageView(|views| + 1, [], 0, 0), h)
      ensures Greedy(views + [v], forced + [f], heads + [h], spaced)
    {
      var vs, fs, hs := views + [v], forced + [f], heads + [h];
      var n := |views|;
      forall k | 0 <= k < n + 1
        ensures !fs[k] ==> Wrap(hs[k], fontSize.size) <= vs[k].textLines
        ensures fs[k] && spaced ==>
          && vs[k].textLines == Wrap(ForceSplit(hs[k], capacity.maxCharacters).0, fontSize.size)
          && !Fits(PageView(k + 1, [], 0, 0), hs[k])
      {
        if k < n {
          assert vs[k] == views[k] && fs[k] == forced[k] && hs[k] == heads[k];
        }
      }
      forall k | 0 <= k < n ensures !fs[k] ==> !Fits(vs[k], hs[k + 1]) {
        assert vs[k] == views[k] && fs[k] == forced[k];
        if k + 1 < n {
          assert hs[k + 1] == heads[k + 1];
        }
      }
    }

    /** Adding `s` to a page whose lines were `before` keeps the page's
        head at its start. */
    lemma AddOpens(before: seq<string>, s: string, head: string, isNew: bool, spaced: bool)
      requires isNew ==> before == [] && head == s
      requires !isNew ==> Wrap(head, fontSize.size) <= before
      requires spaced ==> Spaced(s)
      ensures Wrap(head, fontSize.size) <= before + Wrap(s, fontSize.size)
      ensures spaced ==> before + Wrap(s, fontSize.size) != []
    {
      if spaced {
        SpacedWrapsToLines(s, fontSize.size);
      }
      if isNew {
        assert before + Wrap(s, fontSize.size) == Wrap(head, fontSize.size);
      }
    }

    /** The state of the `distributeToPages` loop: the closed pages and
        their snapshots, the page being filled, and the sentences from
        `index` on. Together they hold the non-whitespace characters of the
        original sentences, `total`. */
    ghost predicate Distributing(pages: seq<PageContent>, views: seq<PageView>, forced: seq<bool>,
                                 current: PageContent, sentences: array<string>, index: nat,
                                 pageLimit: nat, spaced: bool, total: string)
      reads pages, current, sentences
    {
      && index <= sentences.Length && |pages| <= pageLimit
      && ViewsOf(pages, views) && ClosedPages(views, forced, spaced)
      && current.pageNumber == |pages| + 1 && current.Valid()
      && current.characterCount <= capacity.maxCharacters
      && current.lineCount <= maxLinesPerPage
      && (spaced && current.textLines == [] ==> current.characterCount == 0)
      && (|pages| == pageLimit ==> current.textLines == [])
      && (spaced ==> AllSpaced(sentences[index..]))
      && Content(Concat(ViewLines(views) + current.textLines + sentences[index..])) == total
    }

    /** The first branch: the sentence fits and its lines were added to the
        page, which held `before`. */
    lemma AddKeeps(pages: seq<PageContent>, views: seq<PageView>, forced: seq<bool>,
                   current: PageContent, sentences: array<string>, index: nat,
                   pageLimit: nat, spaced: bool, total: string, before: PageView)
      requires ViewsOf(pages, views) && ClosedPages(views, forced, spaced)
      requires index < sentences.Length && |pages| < pageLimit && current.pageNumber == |pages| + 1
      requires before.lineCount == |before.textLines|
      requires before.lineCount + |Wrap(sentences[index], fontSize.size)| <= maxLinesPerPage
      requires before.characterCount + |sentences[index]| <= capacity.maxCharacters
      requires spaced && before.textLines == [] ==> before.characterCount == 0
      requires spaced ==> AllSpaced(sentences[index..])
      requires Content(Concat(ViewLines(views) + before.textLines + sentences[index..])) == total
      requires current.textLines == before.textLines + Wrap(sentences[index], fontSize.size)
      requires current.lineCount == before.lineCount + |Wrap(sentences[index], fontSize.size)|
      requires current.characterCount == before.characterCount + |sentences[index]|
      ensures Distributing(pages, views, forced, current, sentences, index + 1, pageLimit, spaced, total)
    {
      var s := sentences[index];
      var tail := sentences[index + 1..];
      assert sentences[index..] == [s] + tail;
      WrapContent(s, fontSize.size);
      AddStepContent(ViewLines(views), before.textLines, s, Wrap(s, fontSize.size), tail);
      if spaced {
        assert Spaced(([s] + tail)[0]);
        SpacedWrapsToLines(s, fontSize.size);
        forall i | 0 <= i < |tail| ensures Spaced(tail[i]) {
          assert tail[i] == ([s] + tail)[i + 1];
        }
      }
    }

    /** The first branch of `distributeToPages`: the sentence fits, so its
        lines are added to the current page, which keeps its head. */
    method AddStep(pages: seq<PageContent>, ghost views: seq<PageView>, ghost forced: seq<bool>,
                   ghost heads: seq<string>, ghost isNew: bool, ghost head: string,
                   current: PageContent, sentences: array<string>, index: nat, pageLimit: nat,
                   ghost spaced: bool, ghost total: string, ghost goal: Packing)
      requires Distributing(pages, views, forced, current, sentences, index, pageLimit, spaced, total)
      requires Opening(current, isNew, head, sentences, index, views, forced, spaced)
      requires Tied(Packing(views, forced, heads), sentences[index..], current.View(), head, pageLimit, goal)
      requires index < sentences.Length && |pages| < pageLimit && current !in pages
      requires CanAddSentenceToPage(current, sentences[index])
      modifies current
      ensures Distributing(pages, views, forced, current, sentences, index + 1, pageLimit, spaced, total)
      ensures Opening(current, false, head, sentences, index + 1, views, forced, spaced)
      ensures Tied(Packing(views, forced, heads), sentences[index + 1..], current.View(), head, pageLimit, goal)
    {
      ghost var before := current.View();
      ghost var sentence := sentences[index];
      ghost var rem := sentences[index..];
      assert rem[0] == sentence && rem[1..] == sentences[index + 1..];
      CanAddIsFits(current, sentence);
      TiedAdd(Packing(views, forced, heads), rem, before, head, pageLimit, goal);
      assert spaced ==> Spaced(sentence) by {
        if spaced { assert sentences[index..][0] == sentence; }
      }
      AddSentenceToPage(current, sentences[index]);
      forall k | 0 <= k < |pages| ensures pages[k].View() == views[k] {
        assert old(pages[k].View()) == views[k];
      }
      AddKeeps(pages, views, forced, current, sentences, index, pageLimit, spaced, total, before);
      AddOpens(before.textLines, sentence, head, isNew, spaced);
      OpenedAfterAdd(current, head, sentences, index + 1, views, forced, spaced);
      assert current.View() == Added(before, sentence);
    }

    /** The second branch: the page has lines, so it is closed and an empty
        page is opened. */
    lemma CloseKeeps(pages: seq<PageContent>, views: seq<PageView>, forced: seq<bool>,
                     current: PageContent, next: PageContent, sentences: array<string>, index: nat,
                     pageLimit: nat, spaced: bool, total: string)
      requires Distributing(pages, views, forced, current, sentences, index, pageLimit, spaced, total)
      requires |pages| < pageLimit && current.textLines != []
      requires next.pageNumber == |pages| + 2 && next.textLines == [] && next.lineCount == 0
      requires next.characterCount == 0
      ensures Distributing(pages + [current], views + [current.View()], forced + [false], next,
                           sentences, index, pageLimit, spaced, total)
    {
      PushClosed(views, forced, current.View(), false, spaced);
      PushViewsOf(pages, views, current);
      ViewLinesSnoc(views, current.View());
      PushStepContent(ViewLines(views), current.textLines, sentences[index..]);
    }

    /** The second branch of `distributeToPages`: the sentence does not fit
        the page, which has lines, so the page is closed with its head and a
        blank page is opened with the sentence as its head. */
    method CloseStep(pages: seq<PageContent>, ghost views: seq<PageView>, ghost forced: seq<bool>,
                     ghost heads: seq<string>, ghost isNew: bool, ghost head: string,
                     current: PageContent, sentences: array<string>, index: nat, pageLimit: nat,
                     ghost spaced: bool, ghost total: string, ghost goal: Packing)
      returns (next: PageContent)
      requires Distributing(pages, views, forced, current, sentences, index, pageLimit, spaced, total)
      requires Greedy(views, forced, heads, spaced)
      requires Opening(current, isNew, head, sentences, index, views, forced, spaced)
      requires Tied(Packing(views, forced, heads), sentences[index..], current.View(), head, pageLimit, goal)
      requires index < sentences.Length && |pages| < pageLimit
      requires !CanAddSentenceToPage(current, sentences[index]) && current.textLines != []
      ensures fresh(next)
      ensures Tied(Packing(views + [current.View()], forced + [false], heads + [head]), sentences[index..],
                   next.View(), sentences[index], pageLimit, goal)
      ensures Distributing(pages + [current], views + [current.View()], forced + [false], next,
                           sentences, index, pageLimit, spaced, total)
      ensures Greedy(views + [current.View()], forced + [false], heads + [head], spaced)
      ensures Opening(next, true, sentences[index], sentences, index, views + [current.View()],
                      forced + [false], spaced)
    {
      next := new PageContent(|pages| + 2);
      CloseKeeps(pages, views, forced, current, next, sentences, index, pageLimit, spaced, total);
      PushGreedy(views, forced, heads, spaced, current.View(), false, head);
      OpenedBlank(next, sentences[index], sentences, index, views + [current.View()], forced + [false], spaced);
      CanAddIsFits(current, sentences[index]);
      assert sentences[index..][0] == sentences[index] && next.View() == Blank(|views| + 2);
      TiedClose(views, forced, heads, sentences[index..], sentences[index], current.View(), head, pageLimit, goal,
                next.View());
    }

    /** The third branch: the page was empty and the sentence `s` did not
        fit, so its first part filled the page, which is closed, and its
        rest was put back in front of `tail`. */
    lemma ForcedKeeps(pages: seq<PageContent>, views: seq<PageView>, forced: seq<bool>,
                      current: PageContent, next: PageContent, sentences: array<string>,
                      nextIndex: nat, pageLimit: nat, spaced: bool, total: string,
                      s: string, tail: seq<string>, rest: Option<string>)
      requires ViewsOf(pages, views) && ClosedPages(views, forced, spaced)
      requires |pages| < pageLimit && current.pageNumber == |pages| + 1 && current.Valid()
      requires spaced ==> current.characterCount <= capacity.maxCharacters
      requires spaced ==> AllSpaced([s] + tail)
      requires Content(Concat(ViewLines(views) + [] + ([s] + tail))) == total
      requires Content(Concat(current.textLines)) + (if rest.Some? then Content(rest.value) else "")
               == Content(s)
      requires Spaced(s) && capacity.maxCharacters > 0 ==> current.textLines != []
      requires Spaced(s) && rest.Some? ==> Spaced(rest.value)
      requires nextIndex <= sentences.Length && sentences[nextIndex..] == RestList(rest) + tail
      requires next.pageNumber == |pages| + 2 && next.textLines == [] && next.lineCount == 0
      requires next.characterCount == 0
      ensures Distributing(pages + [current], views + [current.View()], forced + [true], next,
                           sentences, nextIndex, pageLimit, spaced, total)
    {
      if spaced {
        assert Spaced(([s] + tail)[0]);
        AllSpacedRestList(s, rest, tail);
      }
      PushClosed(views, forced, current.View(), true, spaced);
      PushViewsOf(pages, views, current);
      ViewLinesSnoc(views, current.View());
      SplitStepContent(ViewLines(views), current.textLines, rest, s, tail);
    }

    /** The third branch of `distributeToPages`: the first part of the
        split sentence fills the empty current page, which is closed; the
        rest is put back and an empty page `next` is opened. */
    method ForcedStep(pages: seq<PageContent>, ghost views: seq<PageView>, ghost forced: seq<bool>,
                      current: PageContent, sentences: array<string>, index: nat, pageLimit: nat,
                      ghost spaced: bool, ghost total: string)
      returns (next: PageContent, nextIndex: nat)
      requires Distributing(pages, views, forced, current, sentences, index, pageLimit, spaced, total)
      requires index < sentences.Length && |pages| < pageLimit
      requires current.textLines == [] && current !in pages
      modifies current, sentences
      ensures fresh(next)
      ensures next.textLines == [] && next.lineCount == 0 && next.characterCount == 0
      ensures current.textLines ==
        Wrap(ForceSplit(old(sentences[index]), capacity.maxCharacters).0, fontSize.size)
      ensures current.View() == Added(old(current.View()), ForceSplit(old(sentences[index]), capacity.maxCharacters).0)
      ensures nextIndex <= sentences.Length
      ensures sentences[nextIndex..] ==
        RestList(ForceSplit(old(sentences[index]), capacity.maxCharacters).1) + old(sentences[index + 1..])
      ensures next.pageNumber == |pages| + 2
      ensures Distributing(pages + [current], views + [current.View()], forced + [true], next,
                           sentences, nextIndex, pageLimit, spaced, total)
    {
      ghost var s := sentences[index];
      ghost var tail := sentences[index + 1..];
      ghost var before := current.View();
      assert sentences[index..] == [s] + tail;
      var first, rest := AddSplitSentence(current, sentences[index]);
      assert current.View() == Added(before, first);
      nextIndex := PutBackRest(sentences, index, rest);
      next := new PageContent(|pages| + 2);
      forall k | 0 <= k < |pages| ensures pages[k].View() == views[k] {
        assert old(pages[k].View()) == views[k];
      }
      ForcedKeeps(pages, views, forced, current, next, sentences, nextIndex, pageLimit, spaced, total,
                  s, tail, rest);
    }

    /** The third branch with the page's head: for spaced sentences the
        page was new, so its head is the split sentence, which did not fit
        an empty page; the next page opens with the sentence now at the
        index. */
    method ForcedBranch(pages: seq<PageContent>, ghost views: seq<PageView>, ghost forced: seq<bool>,
                        ghost heads: seq<string>, ghost isNew: bool, ghost head: string,
                        current: PageContent, sentences: array<string>, index: nat, pageLimit: nat,
                        ghost spaced: bool, ghost total: string, ghost goal: Packing)
      returns (next: PageContent, nextIndex: nat)
      requires Distributing(pages, views, forced, current, sentences, index, pageLimit, spaced, total)
      requires Greedy(views, forced, heads, spaced)
      requires Opening(current, isNew, head, sentences, index, views, forced, spaced)
      requires Tied(Packing(views, forced, heads), sentences[index..], current.View(), head, pageLimit, goal)
      requires index < sentences.Length && |pages| < pageLimit
      requires !CanAddSentenceToPage(current, sentences[index])
      requires current.textLines == [] && current !in pages
      modifies current, sentences
      ensures fresh(next)
      ensures Distributing(pages + [current], views + [current.View()], forced + [true], next,
                           sentences, nextIndex, pageLimit, spaced, total)
      ensures Greedy(views + [current.View()], forced + [true], heads + [head], spaced)
      ensures Opening(next, true, HeadAt(sentences, nextIndex), sentences, nextIndex,
                      views + [current.View()], forced + [true], spaced)
      ensures Tied(Packing(views + [current.View()], forced + [true], heads + [head]), sentences[nextIndex..],
                   next.View(), HeadAt(sentences, nextIndex), pageLimit, goal)
    {
      ghost var rem := sentences[index..];
      ghost var before := current.View();
      assert rem[0] == sentences[index] && rem[1..] == sentences[index + 1..];
      CanAddIsFits(current, sentences[index]);
      ghost var unfit := spaced ==> head == sentences[index] && !Fits(PageView(|views| + 1, [], 0, 0), head);
      assert unfit by {
        if spaced {
          assert isNew && head == sentences[index];
        }
      }
      next, nextIndex := ForcedStep(pages, views, forced, current, sentences, index, pageLimit, spaced, total);
      PushGreedy(views, forced, heads, spaced, current.View(), true, head);
      OpenedBlank(next, HeadAt(sentences, nextIndex), sentences, nextIndex, views + [current.View()],
                  forced + [true], spaced);
      assert next.View() == Blank(|views| + 2) && HeadAt(sentences, nextIndex) == HeadOf(sentences[nextIndex..]);
      TiedForced(views, forced, heads, rem, before, head, pageLimit, goal, current.View(), sentences[nextIndex..],
                 next.View(), HeadAt(sentences, nextIndex));
    }

    /** After the loop: the last page is closed if it has lines; the closed
        pages then hold a prefix of the content, all of it when the page
        limit was not reached. */
    lemma FinishKeeps(pages: seq<PageContent>, views: seq<PageView>, forced: seq<bool>,
                      current: PageContent, sentences: array<string>, index: nat,
                      pageLimit: nat, spaced: bool, total: string)
      requires Distributing(pages, views, forced, current, sentences, index, pageLimit, spaced, total)
      requires index == sentences.Length || |pages| == pageLimit
      ensures var last := if current.textLines != [] then [current] else [];
              var lastView := if current.textLines != [] then [current.View()] else [];
              var lastForced := if current.textLines != [] then [false] else [];
              && |pages + last| <= pageLimit
              && ViewsOf(pages + last, views + lastView)
              && ClosedPages(views + lastView, forced + lastForced, spaced)
              && Content(Concat(ViewLines(views + lastView))) <= total
              && (|pages + last| < pageLimit ==> Content(Concat(ViewLines(views + lastView))) == total)
    {
      var rem := sentences[index..];
      if current.textLines != [] {
        PushClosed(views, forced, current.View(), false, spaced);
        PushViewsOf(pages, views, current);
        ViewLinesSnoc(views, current.View());
        assert ViewLines(views + [current.View()]) + rem == ViewLines(views) + current.textLines + rem;
        FiledContent(ViewLines(views + [current.View()]), rem);
      } else {
        assert views + [] == views;
        assert ViewLines(views) + rem == ViewLines(views) + current.textLines + rem;
        FiledContent(ViewLines(views), rem);
      }
    }

    /** What `distributeToPages` promises of its pages, for sentences that
        held `total` and packed into `goal`. */
    ghost predicate Distributed(pages: seq<PageContent>, views: seq<PageView>, forced: seq<bool>,
                                heads: seq<string>, pageLimit: nat, spaced: bool, total: string, goal: Packing)
      reads pages
    {
      && |pages| <= pageLimit
      && WithinBudget(pages, forced) && ViewsOf(pages, views)
      && Packing(views, forced, heads) == goal
      && Greedy(views, forced, heads, spaced)
      && (spaced ==> CharsWithin(pages))
      && (spaced && capacity.maxCharacters > 0 ==> NoEmptyPage(pages))
      && Content(Concat(ViewLines(views))) <= total
      && (|pages| < pageLimit ==> Content(Concat(ViewLines(views))) == total)
    }

    /** The closed pages and the open page are distinct objects, since they
        carry distinct page numbers. */
    lemma FinishUnaliased(pages: seq<PageContent>, views: seq<PageView>, forced: seq<bool>,
                          current: PageContent, sentences: array<string>, index: nat,
                          pageLimit: nat, spaced: bool, total: string)
      requires Distributing(pages, views, forced, current, sentences, index, pageLimit, spaced, total)
      ensures Unaliased(pages) && Unaliased(pages + [current])
    {
      var all := views + [current.View()];
      assert forall k | 0 <= k < |all| :: all[k].pageNumber == k + 1 by {
        forall k | 0 <= k < |all| ensures all[k].pageNumber == k + 1 {
          if k < |views| { assert all[k] == views[k]; }
        }
      }
      PushViewsOf(pages, views, current);
      NumberedUnaliased(pages + [current], all);
      NumberedUnaliased(pages, views);
    }

    /** After the loop: closing the open page when it has lines gives the
        pages `distributeToPages` returns. */
    lemma FinishAll(pages: seq<PageContent>, views: seq<PageView>, forced: seq<bool>, heads: seq<string>,
                    isNew: bool, head: string, current: PageContent, sentences: array<string>, index: nat,
                    pageLimit: nat, spaced: bool, total: string, goal: Packing)
      requires Distributing(pages, views, forced, current, sentences, index, pageLimit, spaced, total)
      requires Greedy(views, forced, heads, spaced)
      requires Opening(current, isNew, head, sentences, index, views, forced, spaced)
      requires Tied(Packing(views, forced, heads), sentences[index..], current.View(), head, pageLimit, goal)
      requires index == sentences.Length || |pages| == pageLimit
      ensures current.textLines != [] ==>
        Distributed(pages + [current], views + [current.View()], forced + [false], heads + [head],
                    pageLimit, spaced, total, goal)
      ensures current.textLines == [] ==> Distributed(pages, views, forced, heads, pageLimit, spaced, total, goal)
    {
      FinishKeeps(pages, views, forced, current, sentences, index, pageLimit, spaced, total);
      TiedFinish(views, forced, heads, sentences[index..], current.View(), head, pageLimit, goal);
      if current.textLines != [] {
        PushGreedy(views, forced, heads, spaced, current.View(), false, head);
        ClosedPagesBudget(pages + [current], views + [current.View()], forced + [false], spaced);
      } else {
        assert pages + [] == pages && views + [] == views && forced + [] == forced;
        ClosedPagesBudget(pages, views, forced, spaced);
      }
    }

    /** The loop of `distributeToPages`: fills pages until the sentences
        run out or the page limit is reached, leaving the last page open. */
    method FillPages(sentences: array<string>, pageLimit: nat, ghost spaced: bool, ghost total: string,
                     ghost goal: Packing)
      returns (pages: seq<PageContent>, ghost forced: seq<bool>, ghost views: seq<PageView>,
               ghost heads: seq<string>, ghost isNew: bool, ghost head: string,
               currentPage: PageContent, sentenceIndex: nat)
      requires spaced == AllSpaced(sentences[..]) && total == Content(Concat(sentences[..]))
      requires goal == Pack(sentences[..], pageLimit)
      modifies sentences
      ensures Distributing(pages, views, forced, currentPage, sentences, sentenceIndex, pageLimit, spaced, total)
      ensures Greedy(views, forced, heads, spaced)
      ensures Opening(currentPage, isNew, head, sentences, sentenceIndex, views, forced, spaced)
      ensures Tied(Packing(views, forced, heads), sentences[sentenceIndex..], currentPage.View(), head, pageLimit, goal)
      ensures sentenceIndex == sentences.Length || |pages| == pageLimit
      ensures fresh(currentPage)
    {
      pages := [];
      forced := [];
      views := [];
      heads := [];
      isNew := true;
      head := HeadAt(sentences, 0);
      currentPage := new PageContent(1);
      sentenceIndex := 0;
      assert [] + currentPage.textLines + sentences[0..] == sentences[..];
      assert Glue(Packing([], [], []), goal) == goal;
      assert sentences[0..] == sentences[..] && currentPage.View() == Blank(1) && head == HeadOf(sentences[..]);
      while sentenceIndex < sentences.Length && |pages| < pageLimit
        invariant fresh(currentPage)
        invariant Distributing(pages, views, forced, currentPage, sentences, sentenceIndex, pageLimit, spaced, total)
        invariant Greedy(views, forced, heads, spaced)
        invariant Opening(currentPage, isNew, head, sentences, sentenceIndex, views, forced, spaced)
        invariant Tied(Packing(views, forced, heads), sentences[sentenceIndex..], currentPage.View(), head, pageLimit, goal)
        decreases pageLimit - |pages|, sentences.Length - sentenceIndex
      {
        pages, forced, views, heads, isNew, head, currentPage, sentenceIndex :=
          FillStep(pages, forced, views, heads, isNew, head, currentPage, sentences, sentenceIndex,
                   pageLimit, spaced, total, goal);
      }
    }

    /** One round of the loop of `distributeToPages`: add the sentence to
        the open page, or close a page that has lines, or force-split the
        sentence over the empty page. Either a page is closed or a sentence
        is consumed. */
    method FillStep(pages: seq<PageContent>, ghost forced: seq<bool>, ghost views: seq<PageView>,
                    ghost heads: seq<string>, ghost isNew: bool, ghost head: string,
                    currentPage: PageContent, sentences: array<string>, sentenceIndex: nat, pageLimit: nat,
                    ghost spaced: bool, ghost total: string, ghost goal: Packing)
      returns (pages': seq<PageContent>, ghost forced': seq<bool>, ghost views': seq<PageView>,
               ghost heads': seq<string>, ghost isNew': bool, ghost head': string,
               currentPage': PageContent, sentenceIndex': nat)
      requires Distributing(pages, views, forced, currentPage, sentences, sentenceIndex, pageLimit, spaced, total)
      requires Greedy(views, forced, heads, spaced)
      requires Opening(currentPage, isNew, head, sentences, sentenceIndex, views, forced, spaced)
      requires Tied(Packing(views, forced, heads), sentences[sentenceIndex..], currentPage.View(), head, pageLimit, goal)
      requires sentenceIndex < sentences.Length && |pages| < pageLimit
      modifies currentPage, sentences
      ensures Distributing(pages', views', forced', currentPage', sentences, sentenceIndex', pageLimit, spaced, total)
      ensures Greedy(views', forced', heads', spaced)
      ensures Opening(currentPage', isNew', head', sentences, sentenceIndex', views', forced', spaced)
      ensures Tied(Packing(views', forced', heads'), sentences[sentenceIndex'..], currentPage'.View(), head', pageLimit, goal)
      ensures currentPage' == currentPage || fresh(currentPage')
      ensures |pages'| > |pages| || (|pages'| == |pages| && sentenceIndex' > sentenceIndex)
    {
      NotYetListed(pages, views, currentPage);
      if CanAddSentenceToPage(currentPage, sentences[sentenceIndex]) {
        AddStep(pages, views, forced, heads, isNew, head, currentPage, sentences, sentenceIndex, pageLimit, spaced, total, goal);
        pages', forced', views', heads' := pages, forced, views, heads;
        isNew', head', currentPage', sentenceIndex' := false, head, currentPage, sentenceIndex + 1;
      } else if |currentPage.textLines| > 0 {
        var next := CloseStep(pages, views, forced, heads, isNew, head, currentPage, sentences, sentenceIndex,
                              pageLimit, spaced, total, goal);
        pages', forced', views', heads' := pages + [currentPage], forced + [false], views + [currentPage.View()], heads + [head];
        isNew', head', currentPage', sentenceIndex' := true, sentences[sentenceIndex], next, sentenceIndex;
      } else {
        var next, nextIndex := ForcedBranch(pages, views, forced, heads, isNew, head, currentPage, sentences,
                                            sentenceIndex, pageLimit, spaced, total, goal);
        pages', forced', views', heads' := pages + [currentPage], forced + [true], views + [currentPage.View()], heads + [head];
        isNew', head', currentPage', sentenceIndex' := true, HeadAt(sentences, nextIndex), next, nextIndex;
      }
    }

    /** `distributeToPages`: fills pages greedily; a sentence that does not
        fit an empty page is force-split, its first part filling that page
        and its rest overwriting the sentence in place. `forced` records which
        pages were filled by a forced split, `heads` the sentence first tried
        on each page and `views` the pages' final contents. Together they are
        exactly the reference packing `Pack` of the sentences, so a page is
        closed only when the next sentence does not fit it (`Greedy`). For sentences
        as the splitter produces them from normalised text, every page also
        stays within the character budget and, with a positive budget, holds
        at least one line, and a force-split page holds exactly the first
        part of a sentence that did not fit an empty page. */
    method DistributeToPages(sentences: array<string>, pageLimit: nat)
      returns (pages: seq<PageContent>, ghost forced: seq<bool>, ghost views: seq<PageView>,
               ghost heads: seq<string>)
      modifies sentences
      ensures |pages| <= pageLimit
      ensures WithinBudget(pages, forced) && ViewsOf(pages, views)
      ensures Packing(views, forced, heads) == Pack(old(sentences[..]), pageLimit)
      ensures Greedy(views, forced, heads, AllSpaced(old(sentences[..])))
      ensures AllSpaced(old(sentences[..])) ==> CharsWithin(pages)
      ensures AllSpaced(old(sentences[..])) && capacity.maxCharacters > 0 ==> NoEmptyPage(pages)
      ensures Content(Concat(ViewLines(views))) <= Content(Concat(old(sentences[..])))
      ensures |pages| < pageLimit ==> Content(Concat(ViewLines(views))) == Content(Concat(old(sentences[..])))
      ensures Unaliased(pages)
    {
      ghost var total := Content(Concat(sentences[..]));
      ghost var spaced := AllSpaced(sentences[..]);
      ghost var goal := Pack(sentences[..], pageLimit);
      var currentPage, sentenceIndex;
      ghost var isNew, head;
      pages, forced, views, heads, isNew, head, currentPage, sentenceIndex := FillPages(sentences, pageLimit, spaced, total, goal);
      FinishAll(pages, views, forced, heads, isNew, head, currentPage, sentences, sentenceIndex, pageLimit,
                spaced, total, goal);
      FinishUnaliased(pages, views, forced, currentPage, sentences, sentenceIndex, pageLimit, spaced, total);
      if |currentPage.textLines| > 0 {
        pages := pages + [currentPage];
        forced := forced + [false];
        views := views + [currentPage.View()];
        heads := heads + [head];
      }
    }

    /** No page holds more characters on average than one page may hold. */
    lemma StatsWithinBudget(pages: seq<PageContent>)
      requires CharsWithin(pages)
      ensures CalculateDistributionStats(pages).averageCharsPerPage <= capacity.maxCharacters
    {
      TotalCharactersBound(pages);
      if |pages| > 0 {
        RoundedAverageBound(TotalCharacters(pages), |pages|, capacity.maxCharacters);
      }
    }

    lemma {:induction false} TotalCharactersBound(pages: seq<PageContent>)
      requires CharsWithin(pages)
      ensures TotalCharacters(pages) <= |pages| * capacity.maxCharacters
    {
      if pages != [] {
        var init := pages[..|pages| - 1];
        assert CharsWithin(init) by {
          forall k | 0 <= k < |init| ensures init[k].characterCount <= capacity.maxCharacters {
            assert init[k] == pages[k];
          }
        }
        TotalCharactersBound(init);
        var m := capacity.maxCharacters;
        assert TotalCharacters(pages) == TotalCharacters(init) + pages[|pages| - 1].characterCount;
        assert pages[|pages| - 1].characterCount <= m;
        assert |pages| * m == |init| * m + m;
      }
    }

    /** The number of sentences found in one page's text: none exactly for a
        blank text. */
    method CountSentences(pageText: string) returns (found: nat)
      ensures found == |SplitSentences(pageText)|
      ensures found == 0 <==> IsBlank(pageText)
    {
      var sentences := SplitIntoSentences(pageText);
      if !IsBlank(pageText) {
        ContentEmptyIffBlank(pageText);
        assert Content(Concat(sentences)) != "";
      }
      found := |sentences|;
    }

    /** One page more in the count. */
    lemma CountStep(pages: seq<PageContent>, i: nat, count: nat, found: nat)
      requires i < |pages|
      requires count == SentencesInPages(pages[..i])
      requires count == 0 <==> forall k | 0 <= k < i :: IsBlank(Join(pages[k].textLines, " "))
      requires found == |SplitSentences(Join(pages[i].textLines, " "))|
      requires found == 0 <==> IsBlank(Join(pages[i].textLines, " "))
      ensures count + found == SentencesInPages(pages[..i + 1])
      ensures count + found == 0 <==> forall k | 0 <= k < i + 1 :: IsBlank(Join(pages[k].textLines, " "))
    {
      assert pages[..i + 1][..i] == pages[..i];
    }

    /** `getTotalSentenceCount`: the sentences found again in each page's
        lines joined by spaces, summed over the pages. None are found
        exactly when every page is blank. */
    method GetTotalSentenceCount(pages: seq<PageContent>) returns (count: nat)
      ensures count == SentencesInPages(pages)
      ensures count == 0 <==> forall k | 0 <= k < |pages| :: IsBlank(Join(pages[k].textLines, " "))
    {
      count := 0;
      for i := 0 to |pages|
        invariant count == SentencesInPages(pages[..i])
        invariant count == 0 <==> forall k | 0 <= k < i :: IsBlank(Join(pages[k].textLines, " "))
      {
        var found := CountSentences(Join(pages[i].textLines, " "));
        CountStep(pages, i, count, found);
        count := count + found;
      }
      assert pages[..|pages|] == pages;
    }

    /** `distributeText`: normalises the blocks, splits them into sentences,
        fills at most `pageLimit` pages and reports the statistics. The pages
        hold the non-whitespace characters of the blocks in order: a prefix
        of them, and all of them when the limit was not reached, in which
        case nothing is reported as truncated. Content is reported as
        truncated when the limit was reached and re-splitting the pages'
        text finds fewer sentences than the text had. */
    method DistributeText(texts: seq<string>, pageLimit: nat)
      returns (result: TextDistributionResult, ghost forced: seq<bool>, ghost views: seq<PageView>,
               ghost heads: seq<string>)
      ensures |result.pages| <= pageLimit && result.totalPages == |result.pages|
      ensures WithinBudget(result.pages, forced) && CharsWithin(result.pages)
      ensures Packing(views, forced, heads) == Pack(SplitSentences(Preprocess(texts)), pageLimit)
      ensures Greedy(views, forced, heads, true)
      ensures capacity.maxCharacters > 0 ==> NoEmptyPage(result.pages)
      ensures ViewsOf(result.pages, views)
      ensures Content(Concat(ViewLines(views))) <= Content(Concat(texts))
      ensures |result.pages| < pageLimit ==>
        Content(Concat(ViewLines(views))) == Content(Concat(texts)) && !result.truncatedContent
      ensures result.truncatedContent <==>
        |result.pages| >= pageLimit && |SplitSentences(Preprocess(texts))| > SentencesInPages(result.pages)
      ensures result.stats == CalculateDistributionStats(result.pages)
      ensures result.stats.averageCharsPerPage <= capacity.maxCharacters
      ensures Unaliased(result.pages)
    {
      var processedText := Preprocess(texts);
      var sentenceList := SplitIntoSentences(processedText);
      PreprocessNormalised(texts);
      PreprocessContent(texts);
      forall i | 0 <= i < |sentenceList| ensures Spaced(sentenceList[i]) {
        NormalisedIsSpaced(sentenceList[i]);
      }
      var sentences := new string[|sentenceList|](i requires 0 <= i < |sentenceList| => sentenceList[i]);
      assert sentences[..] == sentenceList;
      var pages;
      pages, forced, views, heads := DistributeToPages(sentences, pageLimit);
      var stats := CalculateDistributionStats(pages);
      StatsWithinBudget(pages);
      var sentenceCount := GetTotalSentenceCount(pages);
      result := TextDistributionResult(pages, |pages|, |pages| >= pageLimit && sentences.Length > sentenceCount, stats);
    }
  }
}
