# handwriting-js in Dafny

A Dafny model of the core of handwriting-js. This is a generator of handwriting-practice PDF sheets. A sheet is a page of
"4-zone" guide groups: five horizontal lines (ascender, x-height top, dashed x-height middle, baseline,
descender) and two vertical lines closing the x-height box. Example text is set on the baseline of every
other group.

The model covers:

- **Text distribution** (`TextPrep`, `LineWrap`, `TextDistribution`). The input blocks are normalised into
  one single-spaced text and split into sentences with the `[.!?]+(\s+|$)` scan. Sentences are then
  packed greedily into pages under a line budget and a character budget. A sentence that cannot fit an
  empty page is force-split at a word boundary, or at a character boundary when no word boundary fits.
  The model also gives the page-count estimate and the distribution statistics. `PageContent` and
  `TextDistributor` are classes. `distributeToPages` works on an `array` of sentences that it overwrites
  in place.
- **Page assembly** (`Guidelines`, `PageManagement`). The PDF drawing surface is a `Page` object whose
  `commands` log only grows: every `drawLine`/`drawText` appends a `Line` or `Text` command. A
  `drawText` the font cannot encode appends nothing; the caller then tries the placeholder text. On top
  of that log sit the slot geometry, the seven guide lines of a group, the page-limit clamp, the page
  numbers and the even-slot text mapping of `PageManager`.
- **The single-sheet server path** (`PdfServer`). This covers font-metric extraction with ordered parse
  attempts, `validateFontFile`, `calculateFontSize`, `wrapText` with the font's width callback, and
  `generateHandwritingPDF`. It also covers the server's page estimate.
- **Decision tables** (`ClientErrors`, `Performance`, `FontUtils`, `Fonts`, `Constants`). These are error
  classification and recovery advice, memory-pressure tiers, the automatic page limit, font-metadata
  validation, the CSS string builders and the font/size catalogues.

Strings are `seq<char>`, one `char` per character. Whitespace is the `\s` class of JavaScript regular expressions.
Numbers in geometry and metrics are `real`, and page counts and byte counts are `int`/`nat`.

Text transformations are checked against `Content(s)`, the string with every whitespace character
removed. Normalisation, sentence splitting, wrapping and forced splits all keep `Content`. A character
split can drop a word boundary, so an exact `join` round trip is stated only where it holds: normalised
text, and blocks without empty words.

The client module `lib/pdf-utils.ts` repeats `wrapText` (lines 20-57) and `draw4ZoneGuidelines`
(lines 60-180) of `lib/pdf-server-utils.ts` statement for statement. `drawSingleLineGuidelines` of
`lib/page-manager.ts` (lines 135-243) draws the same seven lines. Each is modelled once, by
`PdfServer.WrapText`, `Guidelines.GuideCoordinates` and `Guidelines.Draw4ZoneGuidelines`.

## Model

| member | source | states |
|---|---|---|
| Strings.Trim | lib/text-distributor.ts:166-173 | the result has no whitespace at either end, is empty exactly when the input is all whitespace, and is the slice between the leading and trailing whitespace runs |
| Strings.TrimContent | lib/text-distributor.ts:166-173 | trimming removes no non-whitespace character |
| Strings.Collapse | lib/text-distributor.ts:166-173 | `replace(/\s+/g, ' ')` gives single-spaced text that starts with a space exactly when the input starts with whitespace |
| Strings.CollapseKeepsWords | lib/text-distributor.ts:166-173 | text without whitespace is left unchanged |
| Strings.CollapseAppend | lib/text-distributor.ts:166-173 | collapsing distributes over a concatenation that does not join two whitespace characters |
| Strings.CollapseRun | lib/text-distributor.ts:166-173 | each maximal whitespace run between words becomes exactly one space at that place: `x + run + y` collapses to `x' + " " + y'` |
| Strings.CollapseContent | lib/text-distributor.ts:166-173 | collapsing whitespace runs keeps every non-whitespace character in order |
| Strings.JoinSplit | lib/pdf-server-utils.ts:239 | splitting on a separator and joining back with it gives the string back |
| Strings.SplitJoin | lib/pdf-server-utils.ts:239 | joining separator-free parts and splitting again gives the parts back |
| Strings.ToLower | lib/font-utils.ts:27 | lower-casing keeps the length and maps each character through the ASCII lower-case map |
| Strings.LowerIdempotent | lib/client-error-handling.ts:82 | lower-casing twice equals lower-casing once |
| Strings.NatToString | lib/page-manager.ts:342-348 | the decimal numeral is non-empty, all digits, without a leading zero |
| Strings.NatToStringRoundTrip | lib/page-manager.ts:342-348 | reading the numeral back gives the page number |
| Constants.SizeConfigFor | lib/constants.ts:68-84 | an unknown size id falls back to the medium preset; every preset has positive spacing and slots |
| Constants.PresetsOrdered | lib/constants.ts:68-84 | a larger preset has taller guide groups and fewer slots |
| Fonts.Find | lib/fonts.ts:89-95 | `find` on a catalogue (fonts or sizes): none exactly when no entry has the id, else the first entry with that id |
| Fonts.GetFontById | lib/fonts.ts:89-91 | none exactly when no catalogue font has the id, otherwise a catalogue font with that id (the first, by `Find`); every listed id finds its own entry (`LookupListedIds`) |
| Fonts.GetFontSizeById | lib/fonts.ts:93-95 | none exactly when no catalogue size has the id, otherwise a catalogue size with that id (the first, by `Find`); every listed id finds its own entry (`LookupListedIds`) |
| Fonts.CatalogueIdsDistinct | lib/fonts.ts:14-81 | font ids and size ids are pairwise distinct |
| Fonts.LookupListedIds | lib/fonts.ts:14-95 | looking up any listed id returns that very entry |
| Fonts.GetDefaultFont | lib/fonts.ts:97-99 | the default font is the catalogue entry with the default id |
| Fonts.GetFontStyle | lib/fonts.ts:124-138 | an empty style exactly when either lookup fails, otherwise `size + "px"`, the quoted family with a monospace fallback, the font's weight and style, and line height 1.5 |
| Fonts.FontStyleSizeReadsBack | lib/fonts.ts:124-138 | the pixel size written into the style reads back as the size entry's number |
| Fonts.FontFaceRules | lib/fonts.ts:119-121 | one `@font-face` rule per font, in list order |
| Fonts.GenerateFontFaceCSS | lib/fonts.ts:106-116 | the `@font-face` rule with the quoted family, the file URL, weight, style and `swap`; extracting the family from it gives the family back (`FontUtils.FontFaceFamilyRoundTrip`) |
| Fonts.GenerateAllFontFacesCSS | lib/fonts.ts:119-121 | the catalogue's rules (`FontFaceRules`: one per font, in order) joined by newlines; the sheet yields the first font's family (`FontUtils.AllFontFacesFirstFamily`) |
| FontUtils.ValidateFontMetadata | lib/font-utils.ts:14-36 | valid iff path, file name, family, name and id are non-empty and the lower-cased file name ends in `.ttf` |
| FontUtils.CatalogueFontsValid | lib/font-utils.ts:14-36 | every catalogue font passes the check |
| FontUtils.ValidationIgnoresCase | lib/font-utils.ts:27 | lower-casing the file name does not change the verdict |
| FontUtils.GetSizeValue | lib/font-utils.ts:194-202 | any id other than small or large gives `18px` |
| FontUtils.SizeValueMatchesCatalogue | lib/font-utils.ts:194-202 | the pixel strings are the catalogue sizes in decimal, and an unknown id gets the medium size |
| FontUtils.ExtractFontFamily | lib/font-utils.ts:147-150 | none when no case-insensitive `font-family:` occurs; a found family is trimmed and holds no quote or semicolon |
| FontUtils.FontFaceFamilyRoundTrip | lib/fonts.ts:106-116 | extracting the family from a generated `@font-face` rule gives the font's family back |
| FontUtils.AllFontFacesFirstFamily | lib/fonts.ts:119-121 | the combined style sheet yields the first catalogue font's family |
| FontUtils.CreateFontStyleString | lib/font-utils.ts:153-155 | weight, style, `1em`, the quoted family and the monospace fallback; the family reads back from between the first two quotes (`FontStyleStringQuotesFamily`) |
| FontUtils.FontStyleStringQuotesFamily | lib/font-utils.ts:153-155 | the family is the text between the first two quotes of the `font` shorthand |
| TextPrep.NonBlank | lib/text-distributor.ts:158 | the kept blocks are all non-blank |
| TextPrep.PreprocessShape | lib/text-distributor.ts:156-174 | the one-block shortcut agrees with join, collapse and trim of the non-blank blocks |
| TextPrep.PreprocessNormalised | lib/text-distributor.ts:156-174 | the normalised text is single-spaced and trimmed |
| TextPrep.PreprocessContent | lib/text-distributor.ts:156-174 | normalisation keeps exactly the non-whitespace characters of the blocks, in order |
| TextPrep.PreprocessEmpty | lib/text-distributor.ts:160-162 | the result is empty exactly when every block is blank |
| TextPrep.NextMatch | lib/text-distributor.ts:202-208 | `exec` finds a terminator match at or after the scan position, with no match starting before it (the leftmost), or none when no position matches |
| TextPrep.ScanAdvance | lib/text-distributor.ts:208-213 | one loop step adds a non-empty trimmed sentence and keeps the scan invariant |
| TextPrep.ScanComplete | lib/text-distributor.ts:222-228 | appending the trimmed unscanned rest keeps every character, including after the 10000-sentence cut-off |
| TextPrep.ScanFrom | lib/text-distributor.ts:202-228 | the reference scan: cut at each match end, stop after more than 10000 sentences and append the rest; at most 10002 sentences |
| TextPrep.SplitIntoSentences | lib/text-distributor.ts:186-241 | the loop yields exactly the reference scan `SplitSentences` (so at most 10002 sentences); blank text gives none; sentences are non-empty and trimmed; all but the last end in `.`/`!`/`?`; content is kept; a normalised text is the sentences joined by spaces |
| LineWrap.Width | lib/text-distributor.ts:406-427 | the monospace width estimate is non-negative and zero only for the empty text |
| LineWrap.WidthMonotone | lib/text-distributor.ts:406-427 | a longer text is never estimated narrower |
| LineWrap.WrapJoin | lib/text-distributor.ts:367-393 | for a text without empty words the lines are non-empty and joined by spaces give the text back |
| LineWrap.WrapContent | lib/text-distributor.ts:367-393 | wrapping keeps every non-whitespace character in order |
| LineWrap.WrapFits | lib/text-distributor.ts:367-393 | every line fits the 500-point width or is a single word |
| LineWrap.SpacedWrapsToLines | lib/text-distributor.ts:367-393 | a normalised sentence wraps to at least one line |
| LineWrap.FitCount | lib/text-distributor.ts:344-352 | the word loop takes the longest word prefix whose join fits the budget |
| LineWrap.ForceSplitParts | lib/text-distributor.ts:334-362 | a short sentence is returned whole with no rest; otherwise the first part fits the budget, a rest exists, and the parts rejoin with a space or directly |
| LineWrap.ForceSplitShrinks | lib/text-distributor.ts:334-362 | with a positive budget the first part is non-empty and the rest strictly shorter than the sentence |
| LineWrap.ForceSplitContent | lib/text-distributor.ts:334-362 | the two parts together keep every non-whitespace character in order |
| LineWrap.ForceSplitSpaced | lib/text-distributor.ts:334-362 | splitting a normalised sentence gives two normalised parts |
| TextDistribution.CalculatePageCapacity | lib/text-distributor.ts:438-457 | the preset's slot count, a character budget of slots times characters per line, the 500-point width, and height of slots times spacing |
| TextDistribution.TextDistributor.constructor | lib/text-distributor.ts:56-77 | keeps the font size, the custom line limit and the characters per line; the line limit is the custom one when given, else the size preset's lines, and the capacity is `CalculatePageCapacity` of them |
| TextDistribution.PageContent.constructor | lib/text-distributor.ts:296-303 | a new page has its number, no lines and zero counters |
| TextDistribution.Round | lib/text-distributor.ts:466-467 | `Math.round` lies within half a unit of its argument |
| TextDistribution.CalculateDistributionStats | lib/text-distributor.ts:459-473 | the total is the sum of the character counters; characters and lines per page are the quotients by the page count rounded to the nearest integer (within one half), or zero without pages |
| TextDistribution.PagesFor | lib/text-distributor.ts:127-134 | `max(1, ceil(length / perPage))` is the fewest pages, but at least one, whose budget covers the text |
| TextDistribution.PagesForMonotone | lib/text-distributor.ts:127-134 | more text never needs fewer pages |
| TextDistribution.TextDistributor.EstimatePageCount | lib/text-distributor.ts:127-134 | the estimate covers the normalised length with the page's character budget |
| TextDistribution.TextDistributor.WrapTextToLines | lib/text-distributor.ts:367-393 | the accumulator loop computes the wrapped lines: join round trip, content kept, every line fits or is one word |
| TextDistribution.TextDistributor.WrapWords | lib/text-distributor.ts:370-390 | at the usable width of the page capacity, the accumulator loop over the words yields exactly the recursive reference wrapping `WrapFrom` of those words |
| TextDistribution.TextDistributor.CanAddSentenceToPage | lib/text-distributor.ts:308-316 | true exactly when, after adding the sentence, both the line count stays within the page's line limit and the character count within the character budget; `CanAddIsFits` equates it with the reference packer's `Fits` |
| TextDistribution.TextDistributor.CanAddIsFits | lib/text-distributor.ts:308-316 | the page test gives the same answer as `Fits` on the page's snapshot, so the loop and the reference packing branch alike |
| TextDistribution.TextDistributor.AddSentenceToPage | lib/text-distributor.ts:322-329 | the sentence's lines are appended after the unchanged earlier lines; the line counter grows by their number and the character counter by the sentence length |
| TextDistribution.TextDistributor.ForceSplitSentence | lib/text-distributor.ts:334-362 | the word loop and the character fallback compute the forced split; short sentences come back whole; a positive budget always makes progress |
| TextDistribution.TextDistributor.TakeFittingWords | lib/text-distributor.ts:339-352 | the word loop takes exactly the `FitCount` leading words, the longest prefix whose join fits, and leaves the rest |
| TextDistribution.TextDistributor.AddSplitSentence | lib/text-distributor.ts:269-270 | the forced branch fills the empty page with the first part's lines within the character budget, keeping content, with a non-empty page for normalised input |
| TextDistribution.TextDistributor.PutBackRest | lib/text-distributor.ts:273-277 | a non-empty rest overwrites the current array slot and is read next; earlier slots are untouched |
| TextDistribution.TextDistributor.AddStep | lib/text-distributor.ts:259-261 | the fitting branch keeps the loop invariant with the sentence consumed, keeps the page's head at its start, and takes exactly the reference packer's fitting step (`Tied`) |
| TextDistribution.TextDistributor.CloseStep | lib/text-distributor.ts:264-266 | the closing branch keeps the loop invariant, records the page as closed because the sentence did not fit (`Greedy`), opens a blank page headed by that sentence, and takes exactly the reference packer's closing step |
| TextDistribution.TextDistributor.ForcedStep | lib/text-distributor.ts:268-281 | the forced branch fills the page with exactly the lines of the split's first part, closes it and opens a fresh blank one, keeping the loop invariant |
| TextDistribution.TextDistributor.ForcedBranch | lib/text-distributor.ts:268-281 | the forced branch records the page as force-split from a head that did not fit an empty page, opens a blank page headed by the sentence now at the index, and takes exactly the reference packer's forced step |
| TextDistribution.TextDistributor.DistributeToPages | lib/text-distributor.ts:250-291 | the pages, their forced flags and their heads are exactly the reference packing `Pack` of the input sentences; hence greedy filling: every page not force-split begins with its head sentence's lines and was closed only because the next sentence did not fit it, and (for normalised sentences) a force-split page holds exactly the first part of a sentence that did not fit an empty page; at most `pageLimit` pages numbered 1.. in order; pages filled by fitting stay within the line budget; for normalised sentences every page is within the character budget and, with a positive budget, non-empty; the pages hold a prefix of the content, all of it below the limit; no page object is returned twice |
| TextDistribution.TextDistributor.FillPages | lib/text-distributor.ts:251-283 | the loop stops with the sentences used up or the limit reached; the closed pages are numbered in order and filled greedily; closed pages, open page and unread sentences together hold the original content; the closed pages followed by the reference packing of the rest give the packing of all sentences |
| TextDistribution.TextDistributor.FillStep | lib/text-distributor.ts:256-282 | each of the three branches keeps the content invariant, the greedy record and the tie to the reference packing, and either closes a page or consumes a sentence, so the loop ends |
| TextDistribution.TextDistributor.PackTwoOnOnePage | lib/text-distributor.ts:255-262 | two sentences that fit one page together are packed onto that one page, not onto a page each |
| TextDistribution.TextDistributor.TiedAdd | lib/text-distributor.ts:259-261 | in the reference packing, a sentence that fits joins the open page |
| TextDistribution.TextDistributor.TiedClose | lib/text-distributor.ts:264-266 | in the reference packing, a sentence that does not fit a page with lines closes it with its head and opens a blank page headed by that sentence |
| TextDistribution.TextDistributor.TiedForced | lib/text-distributor.ts:268-281 | in the reference packing, a sentence that does not fit the blank page has its first part fill that page, which is closed, and its rest read next |
| TextDistribution.TextDistributor.TiedFinish | lib/text-distributor.ts:286-288 | when the sentences run out or the limit is reached, the open page is the last page exactly when it has lines |
| TextDistribution.TextDistributor.FinishAll | lib/text-distributor.ts:284-290 | closing the last page with lines yields pages with every promise of `distributeToPages`: the reference packing, greedy filling, budgets, numbering and the content prefix |
| TextDistribution.TextDistributor.StatsWithinBudget | lib/text-distributor.ts:459-473 | for distributed pages the average characters per page is within the page budget |
| TextDistribution.TextDistributor.TotalCharactersBound | lib/text-distributor.ts:460 | the character total is at most pages times the budget |
| TextDistribution.TextDistributor.CountSentences | lib/text-distributor.ts:479-481 | one page's count is the number of sentences the reference scan finds in its joined lines, zero exactly for blank text |
| TextDistribution.TextDistributor.GetTotalSentenceCount | lib/text-distributor.ts:475-485 | the sum over the pages of the sentences re-found in each page's lines joined by spaces; zero exactly when every page's joined text is blank |
| TextDistribution.TextDistributor.DistributeText | lib/text-distributor.ts:81-125 | the whole pipeline: the pages are the reference packing of the split sentences, filled greedily; at most `pageLimit` pages, budgets kept, no empty page, content prefix, all content and no truncation flag below the limit; the flag is set exactly when the limit is reached and re-splitting the pages finds fewer sentences than the text had; the statistics of the pages; distinct page objects |
| Guidelines.Page.DrawLine | lib/pdf-server-utils.ts:303-390 | a drawn line is appended to the page's command log |
| Guidelines.Page.DrawText | lib/page-manager.ts:276-286 | text is appended exactly when the font can encode it; otherwise the call fails and nothing is drawn |
| Guidelines.Document.AddPage | lib/page-manager.ts:75-76 | a fresh empty page of the given size is appended to the document |
| Guidelines.TextOrPlaceholder | lib/page-manager.ts:275-302 | at most one text command at the baseline: the line itself when encodable, else the grey placeholder, else nothing |
| Guidelines.DrawTextOrPlaceholder | lib/page-manager.ts:275-302 | the try/catch pair appends exactly that command |
| Guidelines.SlotsTileDrawableHeight | lib/page-manager.ts:144-149 | the slots start at the top margin, end at the bottom margin and are one slot height apart, as are the group centres |
| Guidelines.GuideCoordinates | lib/pdf-server-utils.ts:287-298 | the middle line is the group centre, the baseline one spacing below, four equal gaps, strictly decreasing for a positive spacing |
| Guidelines.GuideCommandsShape | lib/pdf-utils.ts:90-177 | exactly seven lines: five horizontal across the margins at the five heights, only the middle one dashed, and two vertical from x-height top to baseline at the two ends |
| Guidelines.Draw4ZoneGuidelines | lib/pdf-server-utils.ts:270-391 | the returned coordinates are slot `i`'s guides, and the page gains exactly those seven lines |
| PageManagement.MergeLayout | lib/page-manager.ts:37-43 | each custom layout field overrides its default, and a missing one keeps it |
| PageManagement.MergeWithoutOverride | lib/page-manager.ts:37-43 | no override leaves the defaults |
| PageManagement.ValidatePageLimit | lib/page-manager.ts:398-410 | the clamp lands in `[MIN_PAGES, MAX_PAGES]`, is the identity inside, and lifts low values to the minimum |
| PageManagement.ValidatePageLimitStable | lib/page-manager.ts:398-410 | the clamp is idempotent and monotone |
| PageManagement.FormatPageNumber | lib/page-manager.ts:342-348 | detailed gives `Page N of M`; simple gives digits that read back as the page number |
| PageManagement.CalculatePageNumberPosition | lib/page-manager.ts:353-383 | centred positions leave equal room on both sides, bottom-right ends at the right margin, bottom positions sit at the margin and the top one a font size below it |
| PageManagement.ShouldAddPageNumber | lib/page-manager.ts:388-393 | false only for page 1 when the first page is not numbered |
| PageManagement.GuidesUpToBlocks | lib/page-manager.ts:107-129 | the guide log of `n` slots is `7n` commands whose block `i` is slot `i`'s seven lines |
| PageManagement.PageManager.DrawSlotRange | lib/page-manager.ts:107-129 | either loop appends the guides of slots `from` to `to - 1` in order after those of the earlier slots, and nothing when it starts at or past its end |
| PageManagement.PageManager.DrawSlotGuides | lib/page-manager.ts:109-116 | one call appends slot `i`'s guide lines to the page |
| PageManagement.TextOnEvenSlots | lib/page-manager.ts:266-273 | every text is on the baseline of an even slot `2k` showing line `k` or the placeholder, and every encodable non-empty line `k` with `2k` in range is shown there |
| PageManagement.PageTextSound | lib/page-manager.ts:266-273 | every text the loop draws is on the baseline of an even slot `2k` inside the range, showing line `k` or the placeholder |
| PageManagement.PageTextComplete | lib/page-manager.ts:266-273 | every non-empty line `k` the font encodes, with `2k` inside the range, is drawn on slot `2k`'s baseline |
| PageManagement.TextUpToStep | lib/page-manager.ts:267 | one `i += 2` step adds exactly slot `i`'s text |
| PageManagement.PageManager.constructor | lib/page-manager.ts:26-44 | the page limit is clamped and the layout merged over the defaults |
| PageManagement.PageManager.EnforcePageLimit | lib/page-manager.ts:415-422 | the first `min(length, pageLimit)` contents, in order |
| PageManagement.PageManager.DrawPageGuidelines | lib/page-manager.ts:95-130 | the two loops draw every slot `0..totalLines-1` exactly once, in order, whatever the line count |
| PageManagement.PageManager.RenderPageText | lib/page-manager.ts:248-304 | the page gains the text of the even slots below `min(lines, slots)` at 0.8 of the font size |
| PageManagement.PageManager.RenderSlot | lib/page-manager.ts:268-302 | one iteration draws line `i/2` (or its placeholder) on slot `i`'s baseline, skipping empty lines |
| PageManagement.PageManager.AddPageNumber | lib/page-manager.ts:309-337 | the formatted number is drawn in grey at the computed position |
| PageManagement.PageManager.CreateSinglePage | lib/page-manager.ts:69-90 | a fresh page is added holding guides, then text, then the number when it is due |
| PageManagement.PageManager.CreatePages | lib/page-manager.ts:49-64 | exactly `min(contents, pageLimit)` fresh pages in input order, each numbered out of that total; extra contents are dropped |
| PdfServer.FirstSuccess | lib/pdf-server-utils.ts:36-56 | no font when every attempt fails, otherwise the first successful attempt's font |
| PdfServer.ParseFont | lib/pdf-server-utils.ts:42-52 | the strategy loop with `break` returns the first success |
| PdfServer.ExtractMetrics | lib/pdf-server-utils.ts:58-76 | success iff the em size is present and positive and the x-height is not negative; the x-height is `sxHeight` when truthy, else half the em; both computed sizes are zero |
| PdfServer.LoadFontMetrics | lib/pdf-server-utils.ts:20-81 | unreadable, empty and unparsable files fail with their own error; otherwise the metrics of the first parse |
| PdfServer.ValidateMetrics | lib/pdf-server-utils.ts:134-141 | a parsed font validates iff its em size is positive |
| PdfServer.ValidateFontFile | lib/pdf-server-utils.ts:84-167 | true iff the file is readable, non-empty and some attempt parses with a positive em size |
| PdfServer.LoadAndValidateAgree | lib/pdf-server-utils.ts:59-67 | loadable metrics always validate, and the two disagree exactly for a positive em with a negative `sxHeight` |
| PdfServer.CalculateFontSize | lib/pdf-server-utils.ts:177-199 | the spacing is a quarter of the preset's group height; the size puts the font's x-height on two spacings; em and x-height kept; both positive for positive metrics |
| PdfServer.WrapAllAppend | lib/pdf-server-utils.ts:238-264 | no line spans two blocks: wrapping concatenated block lists concatenates their lines |
| PdfServer.WrapBlockJoin | lib/pdf-server-utils.ts:238-264 | an empty block gives no lines; a block without empty words gives non-empty lines that join back to it |
| PdfServer.WrapAllFits | lib/pdf-server-utils.ts:244-258 | every line fits the measured width or is a single word |
| PdfServer.CandidatesTwoWords | lib/pdf-server-utils.ts:243-250 | within a block, every candidate handed to the callback is the pending line, a space and a word, so it has two words or more; a first word is never measured |
| PdfServer.CandidatesAllTwoWords | lib/pdf-server-utils.ts:237-258 | every candidate of every block has two words or more |
| PdfServer.WrapWordsLocal | lib/pdf-server-utils.ts:244-258 | within a block, two width callbacks that agree on the candidates give the same lines and the same candidates |
| PdfServer.WrapAllLocal | lib/pdf-server-utils.ts:237-258 | the wrapped lines depend on the width callback only at the candidates it is asked about |
| PdfServer.WrapText | lib/pdf-server-utils.ts:230-267 | the nested loops compute the block-by-block lines (`WrapAll`); the widths asked of the callback are exactly the reference candidates `CandidatesAll`, in order, and each has two words or more |
| PdfServer.SheetTextOnEvenSlots | lib/pdf-server-utils.ts:439-442 | every text on the sheet is on an even slot `2k` with `k` within the wrapped lines, showing line `k` or the placeholder, and every encodable line in range appears |
| PdfServer.SheetTextSound | lib/pdf-server-utils.ts:439-442 | every text on the sheet sits on the baseline of an even slot `2k` with `k` within the wrapped lines, showing line `k` or the placeholder |
| PdfServer.SheetTextComplete | lib/pdf-server-utils.ts:439-455 | every wrapped line `k` the font encodes, with `2k` below the slot count, is drawn on slot `2k`'s baseline in the text colour |
| PdfServer.DrawSheetSlot | lib/pdf-server-utils.ts:427-474 | one iteration draws slot `i`'s guides and then its text |
| PdfServer.DrawPracticeSheet | lib/pdf-server-utils.ts:427-475 | the loop draws every slot's guides and text in slot order |
| PdfServer.DrawSheetPage | lib/pdf-server-utils.ts:400-475 | a fresh A4 page holding the practice sheet for the sized metrics |
| PdfServer.GenerateHandwritingPDF | lib/pdf-server-utils.ts:393-487 | fails exactly when loading the metrics fails, with the same error; otherwise a fresh A4 page with the sheet of the wrapped custom or default texts |
| PdfServer.ConfidenceFor | lib/pdf-server-utils.ts:583-588 | high below 1000 characters, low above 10000, medium between |
| PdfServer.EstimatePageCount | lib/pdf-server-utils.ts:563-616 | the total is the joined length; the limit flag is `estimated > MAX_PAGES`; the distributor's count with its confidence, or a fallback covering 2000 characters per page at low confidence; the rounded average |
| PdfServer.DistributorEstimate | lib/pdf-server-utils.ts:575-576 | with a working distributor the estimate is at least one page and never drops for a longer text |
| ClientErrors.CreateErrorInfo | lib/client-error-handling.ts:18-76 | the type is the argument, details pass through unchanged, message and action are non-empty |
| ClientErrors.MessageIdentifiesKind | lib/client-error-handling.ts:18-76 | no two kinds share a message |
| ClientErrors.ClassifyError | lib/client-error-handling.ts:81-110 | each kind exactly when its test is the first to pass, in source order: memory/heap; timeout/time; page limit/too many pages; text distribution/split; content and large; invalid and page; otherwise the default text-distribution kind |
| ClientErrors.ClassifyIgnoresCase | lib/client-error-handling.ts:82 | a message and its lower-cased form are classified alike |
| ClientErrors.SuggestRecoveryStrategy | lib/client-error-handling.ts:115-178 | retry is always offered, every kind suggests a smaller limit or another text, and only the page-limit kinds withhold the single-page fallback |
| ClientErrors.AdviceForMessage | lib/client-error-handling.ts:81-178 | a memory or heap message leads to a smaller limit with fallback; a time message to a smaller limit; a message with none of the keywords to another text and no smaller limit |
| ClientErrors.CheckMemoryUsage | lib/client-error-handling.ts:194-210 | unavailable means low; high iff the ratio exceeds 0.8, low iff it is at most 0.6 |
| ClientErrors.PressureMonotone | lib/client-error-handling.ts:205-210 | a fuller heap never reads as less pressure |
| ClientErrors.AdjustPageLimitForMemory | lib/client-error-handling.ts:224-237 | never above the current limit; low leaves it unchanged; medium gives the smaller of it and 15, high the smaller of it and 5 |
| ClientErrors.AdjustMonotone | lib/client-error-handling.ts:224-237 | monotone in the limit and antitone in the pressure |
| Performance.Tier | lib/performance-utils.ts:8-13 | critical above 300 MiB, high above 200, medium above 100, else low, all strict |
| Performance.TierMonotone | lib/performance-utils.ts:66-72 | more bytes never give a lower tier |
| Performance.GetCurrentMemoryUsage | lib/performance-utils.ts:39-81 | zeros and low without figures; otherwise the figures and the tier of the used heap |
| Performance.EstimateMemoryUsage | lib/performance-utils.ts:86-114 | one MiB per page plus ten bytes per character; safe strictly below 200 MiB; the advice follows the same tiers |
| Performance.EstimateTiers | lib/performance-utils.ts:95-107 | more pages or text never make an unsafe estimate safe; a safe one is advised at most medium; exactly 200 MiB is unsafe yet medium |
| Performance.Recommend | lib/performance-utils.ts:129-154 | critical advises 3 pages, high 10, medium 25 and low the configured maximum; reduced quality only when critical, warning from high up, streaming from high up or at medium above 20 pages |
| Performance.RecommendTightens | lib/performance-utils.ts:129-154 | rising pressure only lowers the page advice and only raises flags |
| Performance.AutoAdjustPageLimit | lib/performance-utils.ts:306-361 | never increases the limit; unflagged means unchanged; the memory caps 3/10/25 apply first, exactly when the request exceeds them, with their reasons; otherwise an estimate above 300 MiB gives `min(requested, 5)` and one above 200 MiB `min(requested, 15)`, flagged with the estimate reasons, and one of at most 200 MiB leaves the limit unflagged |

## Left out

- File reading, `opentype.parse`, `PDFDocument.create`/`addPage`/`embedFont`/`save` and `registerFontkit` are not modelled as I/O. The file is an optional byte string, and each parse strategy is an abstract optional result, tried in order. A document is a list of pages and a page is a log of drawing commands. The PDF bytes are not produced.
- `drawText` failure is modelled by a font predicate `canEncode`: drawing fails exactly for text the font cannot encode. The page-number font (the library's standard font) is treated as able to encode every number.
- Floating point: geometry, widths, metrics and `calculateFontSize` use exact reals, and no bit-exact JavaScript result is claimed.
- PdfServer.CalculateFontSize: requires a non-zero x-height, because the source's division by zero would give `Infinity`. Loaded metrics always have a positive x-height.
- TextDistribution.TextDistributor.EstimatePageCount: requires a positive character budget, because with `MAX_CHARS_PER_LINE` at 0 the source divides by zero.
- TextDistribution.TextDistributor.DistributeText: the `truncatedContent` flag is tied exactly to the re-split sentence count, but that the heuristic detects every truncation is not claimed; a forced split can make the re-split count exceed the original one.
- TextDistribution.TextDistributor.DistributeToPages: the per-page character bound is proved for sentences that are normalised, which is all `distributeText` ever passes. A sentence made only of spaces would wrap to zero lines.
- TextDistribution.TextDistributor.DistributeToPages: the returned pages are proved to be distinct objects (`Unaliased`) but not to be newly allocated; carrying `fresh` through the loop invariants makes the loop's proof too costly for the verifier. The same holds for `DistributeText`.
- TextDistribution.TextDistributor.DistributeToPages: a force-split page is characterised (exactly the first part of a sentence that did not fit an empty page) only for normalised sentences. For others the pages are still exactly the reference packing `Pack`, which force-splits the same sentences.
- The sentence, width and metrics caches of `TextDistributor`, with `cleanupCaches`, `clearAllCaches` and `getCacheStats`, are not modelled. The cached sentence array can be overwritten in place by `distributeToPages`, so the model always gives it a fresh array. Widths are always computed.
- `measureText`, `estimateRequiredLines`, `getLayoutInfo`, the performance monitor classes, logging, timing (`Date.now`) and `setupAutoMemoryManagement` are not modelled. The server estimate uses only the character count of `measureText`, which is modelled.
- `generateMultiPageHandwritingPDF` and the server action that calls it are not part of this model; its parts (`TextDistributor`, `PageManager`) are.
- `getDefaultFontSize` refers to a constant that is commented out, so it is left out.
- `MULTI_PAGE_CONFIG`, `TEXT_DISTRIBUTION_CONFIG` and `PAGE_NUMBER_CONFIG` are not shown; their values are parameters. The page-limit configuration is assumed to satisfy `1 <= MIN_PAGES <= MAX_PAGES`.
- PageManagement.PageManager.CreatePages: takes the page size as a parameter where the source lets the library choose its default size.
- PdfServer.WrapText: the `words.length === 0` guard cannot fire, because `split` always returns at least one part; the model has no such branch.
- Lower-casing covers the ASCII letters only. Other characters are unchanged, which differs from JavaScript's full Unicode mapping.
- `checkMemoryUsage` takes the ratio `used / limit` as input. The heap sizes it echoes back, and a zero limit (division by zero), are not modelled. `getCurrentMemoryUsage` takes the figures as naturals, so the `|| 0` fallbacks for missing fields are not modelled.
- TextDistribution.TextDistributor.AddStep, CloseStep, ForcedStep, ForcedBranch, AddSplitSentence, PutBackRest and TakeFittingWords: these are the branches of the single `distributeToPages` loop and the word loop of `forceSplitSentence`, split out as methods so that each can be proved on its own; they do not exist as functions in the source.
- JavaScript strings are sequences of UTF-16 code units, and the model has one `char` per character. `length`, `substring`, `slice`, the character budget of a page, `characterCount` and `totalCharacters` therefore count characters. They differ from the source for text outside the Basic Multilingual Plane, such as emoji: there a surrogate pair counts as two in the source, and a forced character split can cut it in half.
- Object-property lookups with a fallback (`sizeMap[sizeId] || '18px'` at lib/font-utils.ts:201, and `FONT_SIZE_MAPPINGS[id] || FONT_SIZE_MAPPINGS.medium` at lib/pdf-server-utils.ts:182, lib/text-distributor.ts:430 and lib/page-manager.ts:101) are modelled as map lookups. Ids that name inherited `Object.prototype` members, such as `"constructor"` or `"toString"`, would return those members in the source instead of the fallback. The model treats them as unknown ids that get the fallback.
- PageManagement.ValidatePageLimit: takes an integer. `parseInt` of a non-numeric page limit gives `NaN` (app/actions/pdf-generator.ts:356), which fails both comparisons of lib/page-manager.ts:398-410 and passes through unclamped. That case is not modelled.
- PageManagement.MergeLayout: a custom field missing from the layout keeps its default. A field present with the explicit value `undefined` would override the default with `undefined` in the spread of lib/page-manager.ts:37-43; the model has no such value.
- UI components, React hooks, the server-action plumbing and the historical `backup/main.js` are outside the model.
