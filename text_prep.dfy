/** Input preparation of the text distributor (lib/text-distributor.ts):
    normalising the text blocks into one single-spaced string and cutting that
    string into sentences with the terminator scan `/[.!?]+(?:\s+|$)/g`. */
module TextPrep {
  import opened Wrappers
  import opened Strings

  // ---------------------------------------------------------------------
  // Normalisation (preprocessTextOptimized)
  // ---------------------------------------------------------------------

  /** `texts.filter(text => text && text.trim().length > 0)` */
  function NonBlank(texts: seq<string>): (r: seq<string>)
    ensures forall i | 0 <= i < |r| :: !IsBlank(r[i])
    ensures |r| <= |texts|
  {
    if texts == [] then []
    else (if IsBlank(texts[0]) then [] else [texts[0]]) + NonBlank(texts[1..])
  }

  lemma {:induction false} NonBlankContent(texts: seq<string>)
    ensures Content(Concat(NonBlank(texts))) == Content(Concat(texts))
  {
    if texts != [] {
      var head := if IsBlank(texts[0]) then [] else [texts[0]];
      NonBlankContent(texts[1..]);
      ConcatAppend(head, NonBlank(texts[1..]));
      ContentAppend(Concat(head), Concat(NonBlank(texts[1..])));
      ContentAppend(texts[0], Concat(texts[1..]));
      ContentEmptyIffBlank(texts[0]);
      assert Concat(head) == if IsBlank(texts[0]) then "" else texts[0];
    }
  }

  lemma {:induction false} NonBlankEmpty(texts: seq<string>)
    ensures NonBlank(texts) == [] <==> forall i | 0 <= i < |texts| :: IsBlank(texts[i])
  {
    if texts != [] {
      NonBlankEmpty(texts[1..]);
      if NonBlank(texts) == [] {
        forall i | 0 <= i < |texts| ensures IsBlank(texts[i]) {
          if i > 0 { assert texts[i] == texts[1..][i - 1]; }
        }
      }
    }
  }

  /** The text blocks joined into one string: blank blocks are dropped, every
      whitespace run becomes one space and the ends are trimmed. */
  function Preprocess(texts: seq<string>): string {
    var nonEmpty := NonBlank(texts);
    if |nonEmpty| == 0 then ""
    else if |nonEmpty| == 1 then Trim(Collapse(nonEmpty[0]))
    else Trim(Collapse(Join(nonEmpty, " ")))
  }

  lemma {:induction false} ConcatContentEmpty(texts: seq<string>)
    ensures Content(Concat(texts)) == [] <==> forall i | 0 <= i < |texts| :: IsBlank(texts[i])
  {
    if texts != [] {
      ConcatContentEmpty(texts[1..]);
      ContentAppend(texts[0], Concat(texts[1..]));
      ContentEmptyIffBlank(texts[0]);
      if Content(Concat(texts)) == [] {
        forall i | 0 <= i < |texts| ensures IsBlank(texts[i]) {
          if i > 0 { assert texts[i] == texts[1..][i - 1]; }
        }
      }
    }
  }

  lemma PreprocessShape(texts: seq<string>)
    requires NonBlank(texts) != []
    ensures Preprocess(texts) == Trim(Collapse(Join(NonBlank(texts), " ")))
  {
  }

  /** The normalised text is single-spaced and trimmed. */
  lemma PreprocessNormalised(texts: seq<string>)
    ensures Normalised(Preprocess(texts))
  {
    if NonBlank(texts) != [] {
      PreprocessShape(texts);
      TrimSingleSpaced(Collapse(Join(NonBlank(texts), " ")));
    }
  }

  /** The normalised text keeps exactly the non-whitespace characters of the
      blocks, in order. */
  lemma PreprocessContent(texts: seq<string>)
    ensures Content(Preprocess(texts)) == Content(Concat(texts))
  {
    NonBlankContent(texts);
    var nonEmpty := NonBlank(texts);
    if nonEmpty == [] {
      assert Concat(nonEmpty) == "";
    } else {
      PreprocessShape(texts);
      var joined := Join(nonEmpty, " ");
      TrimContent(Collapse(joined));
      CollapseContent(joined);
      ContentJoin(nonEmpty);
    }
  }

  /** The normalised text is empty exactly when every block is blank. */
  lemma PreprocessEmpty(texts: seq<string>)
    ensures Preprocess(texts) == "" <==> forall i | 0 <= i < |texts| :: IsBlank(texts[i])
  {
    var r := Preprocess(texts);
    PreprocessContent(texts);
    PreprocessNormalised(texts);
    ConcatContentEmpty(texts);
    ContentEmptyIffBlank(r);
    assert r != [] ==> !IsWhitespace(r[0]);
  }

  // ---------------------------------------------------------------------
  // Sentence scan (splitIntoSentencesOptimized)
  // ---------------------------------------------------------------------

  /** Sentences collected before the scan gives up. */
  const MAX_SENTENCES: nat := 10000

  predicate IsTerminator(c: char) {
    c == '.' || c == '!' || c == '?'
  }

  /** The end of the run of `.`/`!`/`?` that starts at `p`. */
  function TerminatorRunEnd(text: string, p: nat): (q: nat)
    requires p <= |text|
    ensures p <= q <= |text|
    ensures forall i | p <= i < q :: IsTerminator(text[i])
    ensures q < |text| ==> !IsTerminator(text[q])
    decreases |text| - p
  {
    if p < |text| && IsTerminator(text[p]) then TerminatorRunEnd(text, p + 1) else p
  }

  /** The end of the whitespace run that starts at `p`. */
  function WhitespaceRunEnd(text: string, p: nat): (q: nat)
    requires p <= |text|
    ensures p <= q <= |text|
    ensures forall i | p <= i < q :: IsWhitespace(text[i])
    ensures q < |text| ==> !IsWhitespace(text[q])
    decreases |text| - p
  {
    if p < |text| && IsWhitespace(text[p]) then WhitespaceRunEnd(text, p + 1) else p
  }

  /** `/[.!?]+(?:\s+|$)/` matches starting at `p`: a terminator run followed by
      whitespace or by the end of the text. (Giving back terminators cannot
      help, since a terminator is neither whitespace nor the end.) */
  predicate MatchesAt(text: string, p: nat) {
    p < |text| && IsTerminator(text[p])
    && var q := TerminatorRunEnd(text, p);
       q == |text| || IsWhitespace(text[q])
  }

  /** Where a match at `p` ends: the terminator run and then all of the
      whitespace after it. */
  function MatchEnd(text: string, p: nat): (e: nat)
    requires MatchesAt(text, p)
    ensures p < e <= |text|
  {
    WhitespaceRunEnd(text, TerminatorRunEnd(text, p))
  }

  /** The start of the leftmost match at or after `from`, which is what `exec`
      finds with the global flag and `lastIndex == from`. */
  function NextMatch(text: string, from: nat): (m: Option<nat>)
    requires from <= |text|
    ensures m.Some? ==> from <= m.value < |text| && MatchesAt(text, m.value)
    ensures m.Some? ==> forall p | from <= p < m.value :: !MatchesAt(text, p)
    ensures m.None? ==> forall p | from <= p < |text| :: !MatchesAt(text, p)
    decreases |text| - from
  {
    if from == |text| then None
    else if MatchesAt(text, from) then Some(from)
    else NextMatch(text, from + 1)
  }

  function Last(s: string): char
    requires s != []
  {
    s[|s| - 1]
  }

  lemma TrimLastChar(s: string, k: nat)
    requires k < |s| && !IsWhitespace(s[k])
    requires forall i | k < i < |s| :: IsWhitespace(s[i])
    ensures Trim(s) != [] && Last(Trim(s)) == s[k]
  {
  }

  lemma TrimOneTrailingSpace(x: string)
    requires x != [] && IsTrimmed(x)
    ensures Trim(x + " ") == x
  {
    var s := x + " ";
    assert LeadingWs(s) == 0;
    assert s[..|s| - 1] == x;
    assert TrailingWs(x) == 0;
    assert TrailingWs(s) == 1;
  }

  /** One step of the scan: the trimmed slice up to a match end. */
  lemma PieceFacts(text: string, last: nat, p: nat)
    requires last <= p && MatchesAt(text, p)
    ensures var piece := Trim(text[last..MatchEnd(text, p)]);
      piece != [] && IsTerminator(Last(piece))
      && Content(piece) == Content(text[last..MatchEnd(text, p)])
      && (SingleSpaced(text) ==> SingleSpaced(piece))
  {
    var e := MatchEnd(text, p);
    var q := TerminatorRunEnd(text, p);
    var s := text[last..e];
    assert s[q - 1 - last] == text[q - 1];
    forall i | q - 1 - last < i < |s| ensures IsWhitespace(s[i]) {
      assert s[i] == text[last + i];
    }
    TrimLastChar(s, q - 1 - last);
    TrimContent(s);
    assert SingleSpaced(text) ==> SingleSpaced(Trim(s)) by {
      if SingleSpaced(text) {
        SingleSpacedSlice(text, last, e);
        TrimSingleSpaced(s);
      }
    }
  }

  /** The shape of the scan position on a normalised text: nothing read yet,
      or everything read, or the sentences so far followed by one space. */
  predicate ScanState(text: string, sentences: seq<string>, last: nat)
    requires last <= |text|
  {
    (last == 0 ==> sentences == [])
    && (last > 0 ==>
          sentences != []
          && (last == |text| ==> Join(sentences, " ") == text)
          && (last < |text| ==> text[last - 1] == ' ' && Join(sentences, " ") + " " == text[..last]))
  }

  /** On a normalised text the scan always resumes at a non-whitespace
      character. */
  lemma ScanResumesAtWord(text: string, sentences: seq<string>, last: nat)
    requires Normalised(text) && last < |text| && ScanState(text, sentences, last)
    ensures !IsWhitespace(text[last])
  {
    if last > 0 {
      assert text[last - 1] == ' ';
    }
  }

  /** On a normalised text a match ends at the end of the text or just after
      the single space that follows its terminators. */
  lemma NormalisedMatchEnd(text: string, p: nat)
    requires Normalised(text) && MatchesAt(text, p)
    ensures var q := TerminatorRunEnd(text, p);
      MatchEnd(text, p) == |text|
      || (MatchEnd(text, p) == q + 1 && q + 1 < |text| && text[q] == ' ')
  {
    var q := TerminatorRunEnd(text, p);
    if q < |text| {
      assert text[q] == ' ';
      assert !IsWhitespace(text[|text| - 1]);
      assert text[q + 1] != ' ';
    }
  }

  /** A prefix cut into the part before `a`, the slice up to `b` and the
      character at `b`. */
  lemma PrefixPieces(s: string, a: nat, b: nat)
    requires a <= b < |s|
    ensures s[..b + 1] == s[..a] + s[a..b] + [s[b]]
  {
  }

  lemma ScanBeforeSpace(text: string, sentences: seq<string>, last: nat, e: nat)
    requires last + 1 < e < |text| && text[e - 1] == ' '
    requires !IsWhitespace(text[last]) && !IsWhitespace(text[e - 2])
    requires ScanState(text, sentences, last)
    ensures ScanState(text, sentences + [Trim(text[last..e])], e)
  {
    var q := e - 1;
    var x := text[last..q];
    assert text[last..e] == x + " ";
    assert IsTrimmed(x) by {
      assert x[0] == text[last];
      assert x[|x| - 1] == text[q - 1];
    }
    TrimOneTrailingSpace(x);
    var next := sentences + [x];
    PrefixPieces(text, last, q);
    if sentences != [] {
      JoinAppend(sentences, [x], " ");
      assert Join(next, " ") + " " == text[..e];
    } else {
      assert text[..last] == [];
      assert Join(next, " ") == x;
    }
  }

  lemma ScanStep(text: string, sentences: seq<string>, last: nat, p: nat)
    requires Normalised(text) && text != []
    requires last <= p && MatchesAt(text, p) && ScanState(text, sentences, last)
    ensures ScanState(text, sentences + [Trim(text[last..MatchEnd(text, p)])], MatchEnd(text, p))
  {
    var e := MatchEnd(text, p);
    if e == |text| {
      ScanResumesAtWord(text, sentences, last);
      ScanAtEnd(text, sentences, last, e);
    } else {
      ScanAtSpace(text, sentences, last, p, e);
    }
  }

  lemma ScanAtSpace(text: string, sentences: seq<string>, last: nat, p: nat, e: nat)
    requires Normalised(text) && text != []
    requires last <= p && MatchesAt(text, p) && ScanState(text, sentences, last)
    requires e == MatchEnd(text, p) && e < |text|
    ensures ScanState(text, sentences + [Trim(text[last..e])], e)
  {
    var q := TerminatorRunEnd(text, p);
    NormalisedMatchEnd(text, p);
    assert e == q + 1 && text[q] == ' ';
    assert p < q by {
      assert IsTerminator(text[p]);
    }
    assert IsTerminator(text[e - 2]);
    ScanResumesAtWord(text, sentences, last);
    ScanBeforeSpace(text, sentences, last, e);
  }

  lemma ScanAtEnd(text: string, sentences: seq<string>, last: nat, e: nat)
    requires Normalised(text) && text != [] && e == |text|
    requires last < |text| && ScanState(text, sentences, last)
    ensures ScanState(text, sentences + [Trim(text[last..e])], e)
  {
    assert text[last..e] == text[last..];
    ScanFinish(text, sentences, last);
  }

  lemma ScanFinish(text: string, sentences: seq<string>, last: nat)
    requires Normalised(text) && text != []
    requires last < |text| && ScanState(text, sentences, last)
    ensures Trim(text[last..]) == text[last..]
    ensures Join(sentences + [text[last..]], " ") == text
  {
    var rest := text[last..];
    ScanResumesAtWord(text, sentences, last);
    assert IsTrimmed(rest) by {
      assert rest[0] == text[last];
      assert rest[|rest| - 1] == text[|text| - 1];
    }
    TrimmedIsFixed(rest);
    if sentences != [] {
      JoinAppend(sentences, [rest], " ");
      assert text == text[..last] + rest;
    }
  }

  lemma ConcatSnoc(s: seq<string>, t: string)
    ensures Concat(s + [t]) == Concat(s) + t
  {
    ConcatAppend(s, [t]);
    assert Concat([t]) == t + Concat([]);
  }

  /** Every sentence is non-empty, trimmed and ends in a terminator. */
  predicate Terminated(sentences: seq<string>) {
    forall i | 0 <= i < |sentences| ::
      sentences[i] != "" && IsTrimmed(sentences[i]) && IsTerminator(Last(sentences[i]))
  }

  predicate AllSingleSpaced(sentences: seq<string>) {
    forall i | 0 <= i < |sentences| :: SingleSpaced(sentences[i])
  }

  lemma ContentSnoc(sentences: seq<string>, x: string)
    ensures Content(Concat(sentences + [x])) == Content(Concat(sentences)) + Content(x)
  {
    ConcatSnoc(sentences, x);
    ContentAppend(Concat(sentences), x);
  }

  /** What holds of the sentences collected after reading `text[..last]`. */
  predicate Scanned(text: string, sentences: seq<string>, last: nat)
    requires last <= |text|
  {
    Terminated(sentences)
    && (SingleSpaced(text) ==> AllSingleSpaced(sentences))
    && Content(Concat(sentences)) == Content(text[..last])
    && (Normalised(text) ==> ScanState(text, sentences, last))
  }

  lemma ScanAdvance(text: string, sentences: seq<string>, last: nat, p: nat)
    requires !IsBlank(text)
    requires last <= p && MatchesAt(text, p) && Scanned(text, sentences, last)
    ensures Trim(text[last..MatchEnd(text, p)]) != []
    ensures Scanned(text, sentences + [Trim(text[last..MatchEnd(text, p)])], MatchEnd(text, p))
  {
    var e := MatchEnd(text, p);
    var sentence := Trim(text[last..e]);
    var next := sentences + [sentence];
    PieceFacts(text, last, p);
    assert forall i | 0 <= i < |sentences| :: next[i] == sentences[i];
    assert Terminated(next) by {
      assert sentence != "" && IsTrimmed(sentence) && IsTerminator(Last(sentence));
    }
    assert SingleSpaced(text) ==> AllSingleSpaced(next) by {
      if SingleSpaced(text) {
        assert SingleSpaced(sentence) && AllSingleSpaced(sentences);
      }
    }
    assert Content(Concat(next)) == Content(text[..e]) by {
      ContentSnoc(sentences, sentence);
      ContentOfPrefix(text, last, e);
    }
    assert Normalised(text) ==> ScanState(text, next, e) by {
      if Normalised(text) { ScanStep(text, sentences, last, p); }
    }
  }

  /** The sentences with the trimmed unscanned rest appended when it is not
      blank. */
  function WithRest(text: string, sentences: seq<string>, last: nat): seq<string>
    requires last <= |text|
  {
    if last < |text| && Trim(text[last..]) != [] then sentences + [Trim(text[last..])]
    else sentences
  }

  /** Every sentence is non-empty and trimmed, and all but the last end in a
      terminator. */
  predicate SentenceList(r: seq<string>) {
    (forall i | 0 <= i < |r| :: r[i] != "" && IsTrimmed(r[i]))
    && (forall i | 0 <= i < |r| - 1 :: IsTerminator(Last(r[i])))
  }

  lemma TerminatedSnoc(sentences: seq<string>, x: string)
    requires Terminated(sentences) && x != [] && IsTrimmed(x)
    ensures SentenceList(sentences + [x])
  {
    assert forall i | 0 <= i < |sentences| :: (sentences + [x])[i] == sentences[i];
  }

  lemma SingleSpacedSnoc(sentences: seq<string>, x: string)
    requires AllSingleSpaced(sentences) && SingleSpaced(x)
    ensures AllSingleSpaced(sentences + [x])
  {
    assert forall i | 0 <= i < |sentences| :: (sentences + [x])[i] == sentences[i];
  }

  lemma TerminatedIsList(sentences: seq<string>)
    requires Terminated(sentences)
    ensures SentenceList(sentences)
  {
  }

  /** The unscanned rest, trimmed, keeps the rest's content. */
  lemma RestContent(text: string, last: nat)
    requires last < |text|
    ensures Content(text[..last]) + Content(Trim(text[last..])) == Content(text)
  {
    var done, rest := text[..last], text[last..];
    assert done + rest == text;
    ContentAppend(done, rest);
    TrimContent(rest);
  }

  /** The unscanned rest, trimmed, keeps the text's single spacing. */
  lemma RestSpacing(text: string, last: nat)
    requires last < |text| && SingleSpaced(text)
    ensures SingleSpaced(Trim(text[last..]))
  {
    SingleSpacedSlice(text, last, |text|);
    TrimSingleSpaced(text[last..]);
  }

  lemma ScanComplete(text: string, sentences: seq<string>, last: nat)
    requires !IsBlank(text) && last <= |text| && Scanned(text, sentences, last)
    ensures var r := WithRest(text, sentences, last);
      SentenceList(r)
      && Content(Concat(r)) == Content(text)
      && (Normalised(text) ==> Join(r, " ") == text)
      && (SingleSpaced(text) ==> AllSingleSpaced(r))
  {
    if last < |text| {
      var lastSentence := Trim(text[last..]);
      RestContent(text, last);
      if SingleSpaced(text) { RestSpacing(text, last); }
      if Normalised(text) { ScanFinish(text, sentences, last); }
      if lastSentence != [] {
        ContentSnoc(sentences, lastSentence);
        TerminatedSnoc(sentences, lastSentence);
        if SingleSpaced(text) { SingleSpacedSnoc(sentences, lastSentence); }
      } else {
        ContentEmptyIffBlank(lastSentence);
        TerminatedIsList(sentences);
      }
    } else {
      assert text[..last] == text;
      TerminatedIsList(sentences);
    }
  }

  /** The scan of `splitIntoSentencesOptimized` from position `last` with
      `sentences` collected so far, as a recursive definition: the next
      sentence is the trimmed slice from `last` to the end of the leftmost
      match at or after `last` (dropped when blank); once more than
      `MAX_SENTENCES` sentences are collected the scan stops, and whatever is
      left of the text, trimmed, becomes one last sentence. */
  function ScanFrom(text: string, last: nat, sentences: seq<string>): (r: seq<string>)
    requires last <= |text|
    ensures |sentences| <= MAX_SENTENCES ==> |r| <= MAX_SENTENCES + 2
    decreases |text| - last
  {
    match NextMatch(text, last)
    case None => WithRest(text, sentences, last)
    case Some(p) =>
      var e := MatchEnd(text, p);
      var piece := Trim(text[last..e]);
      var next := if piece != [] then sentences + [piece] else sentences;
      if |next| > MAX_SENTENCES then WithRest(text, next, e) else ScanFrom(text, e, next)
  }

  /** The sentences of `text`: none for a blank text, otherwise the scan from
      the start. */
  function SplitSentences(text: string): seq<string> {
    if IsBlank(text) then [] else ScanFrom(text, 0, [])
  }

  /** `splitIntoSentencesOptimized` without its cache: scans matches left to
      right, keeping each trimmed slice up to the end of a match, stops after
      more than `MAX_SENTENCES` sentences, and keeps the unscanned rest as one
      last sentence. The loop computes `SplitSentences`; what the sentences
      are made of is stated alongside. */
  method SplitIntoSentences(text: string) returns (sentences: seq<string>)
    ensures sentences == SplitSentences(text)
    ensures |sentences| <= MAX_SENTENCES + 2
    ensures IsBlank(text) ==> sentences == []
    ensures forall i | 0 <= i < |sentences| :: sentences[i] != "" && IsTrimmed(sentences[i])
    ensures forall i | 0 <= i < |sentences| - 1 :: IsTerminator(Last(sentences[i]))
    ensures Content(Concat(sentences)) == Content(text)
    ensures Normalised(text) ==> Join(sentences, " ") == text
    ensures SingleSpaced(text) ==> forall i | 0 <= i < |sentences| :: SingleSpaced(sentences[i])
  {
    if IsBlank(text) {
      ContentEmptyIffBlank(text);
      return [];
    }
    sentences := [];
    var lastIndex: nat := 0;
    var m := NextMatch(text, 0);
    assert text[..0] == [];
    while m.Some?
      invariant lastIndex <= |text|
      invariant m == NextMatch(text, lastIndex)
      invariant Scanned(text, sentences, lastIndex)
      invariant |sentences| <= MAX_SENTENCES
      invariant ScanFrom(text, lastIndex, sentences) == SplitSentences(text)
      decreases |text| - lastIndex
    {
      var end := MatchEnd(text, m.value);
      var sentence := Trim(text[lastIndex..end]);
      ScanAdvance(text, sentences, lastIndex, m.value);
      if |sentence| > 0 {
        sentences := sentences + [sentence];
      }
      lastIndex := end;
      if |sentences| > MAX_SENTENCES {
        break;
      }
      m := NextMatch(text, lastIndex);
    }
    ScanComplete(text, sentences, lastIndex);
    if lastIndex < |text| {
      var lastSentence := Trim(text[lastIndex..]);
      if |lastSentence| > 0 {
        sentences := sentences + [lastSentence];
      }
    }
  }
}
