/** Specifications of the distributor's line wrapping and forced sentence
    split (lib/text-distributor.ts), with the properties they guarantee. The
    imperative loops that compute them live in `TextDistribution`. */
module LineWrap {
  import opened Wrappers
  import opened Strings

  /** Usable line width of a sheet, in points. */
  const AVAILABLE_WIDTH: real := 500.0

  /** Monospace width estimate: every character is 0.6 of the font size. */
  function Width(length: nat, size: nat): (w: real)
    ensures w >= 0.0
    ensures size > 0 ==> (w == 0.0 <==> length == 0)
  {
    length as real * (size as real * 0.6)
  }

  /** A longer text is never estimated narrower. */
  lemma WidthMonotone(a: nat, b: nat, size: nat)
    requires a <= b
    ensures Width(a, size) <= Width(b, size)
  {
    assert (b - a) as real * (size as real * 0.6) >= 0.0;
  }

  predicate Fits(line: string, size: nat) {
    Width(|line|, size) <= AVAILABLE_WIDTH
  }

  // ---------------------------------------------------------------------
  // wrapTextToLines
  // ---------------------------------------------------------------------

  /** The lines still to be produced when `words` remain and the line being
      built is `current`: a word is appended while the candidate fits; a
      candidate that does not fit flushes the current line, and a word that
      does not fit on an empty line becomes a line of its own. */
  function WrapFrom(words: seq<string>, current: string, size: nat): seq<string>
    decreases |words|
  {
    if words == [] then (if current != "" then [current] else [])
    else
      var word := words[0];
      var test := if current != "" then current + " " + word else word;
      if Fits(test, size) then WrapFrom(words[1..], test, size)
      else if current != "" then [current] + WrapFrom(words[1..], word, size)
      else [word] + WrapFrom(words[1..], current, size)
  }

  /** The lines `wrapTextToLines` makes of `text` at font size `size`. */
  function Wrap(text: string, size: nat): seq<string> {
    WrapFrom(Split(text, ' '), "", size)
  }

  /** The pending line as a list of zero or one parts. */
  function Pending(current: string): seq<string> {
    if current == "" then [] else [current]
  }

  lemma JoinCons(x: string, parts: seq<string>, sep: string)
    requires parts != []
    ensures Join([x] + parts, sep) == x + sep + Join(parts, sep)
  {
    assert ([x] + parts)[1..] == parts;
  }

  lemma ConcatCons(x: string, parts: seq<string>)
    ensures Concat([x] + parts) == x + Concat(parts)
  {
    assert ([x] + parts)[1..] == parts;
  }

  lemma JoinMerge(a: string, b: string, rest: seq<string>)
    ensures Join([a + " " + b] + rest, " ") == Join([a, b] + rest, " ")
  {
    assert [a, b] + rest == [a] + ([b] + rest);
    JoinCons(a, [b] + rest, " ");
    if rest != [] {
      JoinCons(a + " " + b, rest, " ");
      JoinCons(b, rest, " ");
    }
  }

  /** All lines are non-empty. */
  predicate NoEmptyLine(lines: seq<string>) {
    forall i | 0 <= i < |lines| :: lines[i] != ""
  }

  lemma NoEmptyLineCons(x: string, lines: seq<string>)
    requires x != "" && NoEmptyLine(lines)
    ensures NoEmptyLine([x] + lines)
  {
    forall i | 0 <= i < |[x] + lines| ensures ([x] + lines)[i] != "" {
      if i > 0 { assert ([x] + lines)[i] == lines[i - 1]; }
    }
  }

  /** With no empty word, every wrapped line is non-empty, and there is at
      least one line unless there was nothing to wrap. */
  lemma {:induction false} WrapFromNonEmpty(words: seq<string>, current: string, size: nat)
    requires NoEmptyLine(words)
    ensures NoEmptyLine(WrapFrom(words, current, size))
    ensures current != "" || words != [] ==> WrapFrom(words, current, size) != []
    decreases |words|
  {
    if words != [] {
      var word, rest := words[0], words[1..];
      assert NoEmptyLine(rest) by {
        forall i | 0 <= i < |rest| ensures rest[i] != "" { assert rest[i] == words[i + 1]; }
      }
      var test := if current != "" then current + " " + word else word;
      if Fits(test, size) {
        WrapFromNonEmpty(rest, test, size);
      } else if current != "" {
        WrapFromNonEmpty(rest, word, size);
        NoEmptyLineCons(current, WrapFrom(rest, word, size));
      } else {
        WrapFromNonEmpty(rest, current, size);
        NoEmptyLineCons(word, WrapFrom(rest, current, size));
      }
    }
  }

  /** With no empty word, joining the wrapped lines with single spaces gives
      back the pending line followed by the words. */
  lemma {:induction false} WrapFromJoin(words: seq<string>, current: string, size: nat)
    requires NoEmptyLine(words)
    ensures Join(WrapFrom(words, current, size), " ") == Join(Pending(current) + words, " ")
    decreases |words|
  {
    if words == [] {
      assert Pending(current) + words == Pending(current);
    } else {
      var word, rest := words[0], words[1..];
      assert words == [word] + rest;
      assert NoEmptyLine(rest) by {
        forall i | 0 <= i < |rest| ensures rest[i] != "" { assert rest[i] == words[i + 1]; }
      }
      var test := if current != "" then current + " " + word else word;
      if Fits(test, size) {
        WrapFromFitStep(words, current, size);
      } else if current != "" {
        WrapFromFlushStep(words, current, size);
      } else {
        WrapFromLongWordStep(words, size);
        assert Pending(current) + words == words;
      }
    }
  }

  lemma {:induction false} WrapFromFitStep(words: seq<string>, current: string, size: nat)
    requires NoEmptyLine(words) && words != []
    requires Fits(if current != "" then current + " " + words[0] else words[0], size)
    requires NoEmptyLine(words[1..])
    ensures Join(WrapFrom(words, current, size), " ") == Join(Pending(current) + words, " ")
    decreases |words|, 0
  {
    var word, rest := words[0], words[1..];
    var test := if current != "" then current + " " + word else word;
    assert WrapFrom(words, current, size) == WrapFrom(rest, test, size);
    WrapFromJoin(rest, test, size);
    assert Pending(test) == [test];
    if current != "" {
      JoinMerge(current, word, rest);
      assert Pending(current) + words == [current, word] + rest;
    } else {
      assert [test] + rest == words;
      assert Pending(current) + words == words;
    }
  }

  lemma {:induction false} WrapFromFlushStep(words: seq<string>, current: string, size: nat)
    requires NoEmptyLine(words) && words != [] && current != ""
    requires !Fits(current + " " + words[0], size)
    requires NoEmptyLine(words[1..])
    ensures Join(WrapFrom(words, current, size), " ") == Join(Pending(current) + words, " ")
    decreases |words|, 0
  {
    var word, rest := words[0], words[1..];
    var tail := WrapFrom(rest, word, size);
    assert WrapFrom(words, current, size) == [current] + tail;
    WrapFromJoin(rest, word, size);
    WrapFromNonEmpty(rest, word, size);
    assert Pending(word) + rest == words;
    JoinCons(current, tail, " ");
    JoinCons(current, words, " ");
  }

  lemma {:induction false} WrapFromLongWordStep(words: seq<string>, size: nat)
    requires NoEmptyLine(words) && words != []
    requires !Fits(words[0], size)
    requires NoEmptyLine(words[1..])
    ensures Join(WrapFrom(words, "", size), " ") == Join(words, " ")
    decreases |words|, 0
  {
    var word, rest := words[0], words[1..];
    var tail := WrapFrom(rest, "", size);
    assert WrapFrom(words, "", size) == [word] + tail;
    WrapFromJoin(rest, "", size);
    WrapFromNonEmpty(rest, "", size);
    assert Pending("") + rest == rest;
    if rest != [] {
      JoinCons(word, tail, " ");
      JoinCons(word, rest, " ");
      assert [word] + rest == words;
    } else {
      assert tail == [];
    }
  }

  /** Wrapping keeps every non-whitespace character, in order, whatever the
      words are. */
  lemma {:induction false} WrapFromContent(words: seq<string>, current: string, size: nat)
    ensures Content(Concat(WrapFrom(words, current, size))) == Content(current) + Content(Concat(words))
    decreases |words|, 1
  {
    if words == [] {
      assert Concat(words) == "";
      if current != "" {
        assert WrapFrom(words, current, size) == [current];
        ConcatCons(current, []);
        assert [current] + [] == [current];
        assert Concat([current]) == current;
      } else {
        assert WrapFrom(words, current, size) == [];
      }
      assert Content("") == [];
    } else if Fits(if current != "" then current + " " + words[0] else words[0], size) {
      WrapFromContentExtend(words, current, size);
    } else {
      WrapFromContentPush(words, current, size);
    }
  }

  /** The step of `WrapFromContent` where the word joins the pending line. */
  lemma {:induction false} WrapFromContentExtend(words: seq<string>, current: string, size: nat)
    requires words != []
    requires Fits(if current != "" then current + " " + words[0] else words[0], size)
    ensures Content(Concat(WrapFrom(words, current, size))) == Content(current) + Content(Concat(words))
    decreases |words|, 0
  {
    var word, rest := words[0], words[1..];
    var test := if current != "" then current + " " + word else word;
    assert WrapFrom(words, current, size) == WrapFrom(rest, test, size);
    WrapFromContent(rest, test, size);
    ContentFirstWord(words);
    PendingContent(current, word);
    AppendAssocString(Content(current), Content(word), Content(Concat(rest)));
  }

  lemma ContentFirstWord(words: seq<string>)
    requires words != []
    ensures Content(Concat(words)) == Content(words[0]) + Content(Concat(words[1..]))
  {
    ConcatCons(words[0], words[1..]);
    assert words == [words[0]] + words[1..];
    ContentAppend(words[0], Concat(words[1..]));
  }

  /** Joining a word to the pending line adds only a space. */
  lemma PendingContent(current: string, word: string)
    ensures Content(if current != "" then current + " " + word else word) == Content(current) + Content(word)
  {
    if current != "" {
      ContentAppend(current + " ", word);
      ContentAppend(current, " ");
      assert Content(" ") == [] by { assert IsWhitespace(' '); }
    } else {
      assert Content(current) == [];
    }
  }

  lemma AppendAssocString(x: string, y: string, z: string)
    ensures x + y + z == x + (y + z)
  {
  }

  /** The step of `WrapFromContent` where a line is pushed. */
  lemma {:induction false} WrapFromContentPush(words: seq<string>, current: string, size: nat)
    requires words != []
    requires !Fits(if current != "" then current + " " + words[0] else words[0], size)
    ensures Content(Concat(WrapFrom(words, current, size))) == Content(current) + Content(Concat(words))
    decreases |words|, 0
  {
    var word, rest := words[0], words[1..];
    ConcatCons(word, rest);
    assert words == [word] + rest;
    ContentAppend(word, Concat(rest));
    var pushed := if current != "" then current else word;
    var next := if current != "" then word else current;
    var tail := WrapFrom(rest, next, size);
    assert WrapFrom(words, current, size) == [pushed] + tail;
    WrapFromContent(rest, next, size);
    ConcatCons(pushed, tail);
    ContentAppend(pushed, Concat(tail));
  }

  /** Every line fits, or holds no space (a single word). */
  predicate FitOrSingleWord(lines: seq<string>, size: nat) {
    forall i | 0 <= i < |lines| :: Fits(lines[i], size) || ' ' !in lines[i]
  }

  /** A line wider than the limit holds a single word: every line with a
      space in it fits. */
  lemma {:induction false} WrapFromFits(words: seq<string>, current: string, size: nat)
    requires forall i | 0 <= i < |words| :: ' ' !in words[i]
    requires Fits(current, size) || ' ' !in current
    ensures FitOrSingleWord(WrapFrom(words, current, size), size)
    decreases |words|
  {
    if words != [] {
      var word, rest := words[0], words[1..];
      var test := if current != "" then current + " " + word else word;
      if Fits(test, size) {
        assert WrapFrom(words, current, size) == WrapFrom(rest, test, size);
        WrapFromFits(rest, test, size);
      } else if current != "" {
        var tail := WrapFrom(rest, word, size);
        assert WrapFrom(words, current, size) == [current] + tail;
        WrapFromFits(rest, word, size);
        forall i | 1 <= i < |tail| + 1 ensures Fits(([current] + tail)[i], size) || ' ' !in ([current] + tail)[i] {
          assert ([current] + tail)[i] == tail[i - 1];
        }
      } else {
        var tail := WrapFrom(rest, current, size);
        assert WrapFrom(words, current, size) == [word] + tail;
        WrapFromFits(rest, current, size);
        forall i | 1 <= i < |tail| + 1 ensures Fits(([word] + tail)[i], size) || ' ' !in ([word] + tail)[i] {
          assert ([word] + tail)[i] == tail[i - 1];
        }
      }
    }
  }

  /** For a text with no empty word the lines are non-empty and joining them
      with single spaces gives the text back. */
  lemma WrapJoin(text: string, size: nat)
    requires WordsNonEmpty(text)
    ensures NoEmptyLine(Wrap(text, size))
    ensures Join(Wrap(text, size), " ") == text
  {
    var words := Split(text, ' ');
    WrapFromNonEmpty(words, "", size);
    WrapFromJoin(words, "", size);
    assert Pending("") + words == words;
    JoinSplit(text, ' ');
  }

  lemma WrapContent(text: string, size: nat)
    ensures Content(Concat(Wrap(text, size))) == Content(text)
  {
    var words := Split(text, ' ');
    WrapFromContent(words, "", size);
    JoinSplit(text, ' ');
    ContentJoin(words);
  }

  lemma WrapFits(text: string, size: nat)
    ensures FitOrSingleWord(Wrap(text, size), size)
  {
    var words := Split(text, ' ');
    assert forall i | 0 <= i < |words| :: ' ' !in words[i];
    assert Wrap(text, size) == WrapFrom(words, "", size);
    WrapFromFits(words, "", size);
  }

  // ---------------------------------------------------------------------
  // Sentences as the splitter produces them from normalised text
  // ---------------------------------------------------------------------

  /** The character at `i` and the next are not both spaces. */
  predicate NoDoubleSpaceAt(s: string, i: nat)
    requires i + 1 < |s|
  {
    !(s[i] == ' ' && s[i + 1] == ' ')
  }

  /** Non-empty, no space at either end and no two adjacent spaces. */
  predicate Spaced(s: string) {
    && s != [] && s[0] != ' ' && s[|s| - 1] != ' '
    && forall i: nat | i + 1 < |s| :: NoDoubleSpaceAt(s, i)
  }

  lemma NormalisedIsSpaced(s: string)
    requires Normalised(s) && s != []
    ensures Spaced(s)
  {
    assert IsWhitespace(' ');
  }

  lemma SpacedWords(s: string)
    requires Spaced(s)
    ensures WordsNonEmpty(s)
  {
    forall i | 0 <= i < |s| - 1 ensures !(s[i] == ' ' && s[i + 1] == ' ') {
      assert NoDoubleSpaceAt(s, i);
    }
    LaterWordsNonEmpty(s);
  }

  /** A spaced text wraps to at least one line. */
  lemma SpacedWrapsToLines(s: string, size: nat)
    requires Spaced(s)
    ensures Wrap(s, size) != []
  {
    SpacedWords(s);
    WrapJoin(s, size);
  }

  /** Cutting a spaced text at one of its spaces leaves two spaced texts. */
  lemma SpacedAroundSpace(s: string, a: string, b: string)
    requires Spaced(s) && s == a + " " + b
    ensures Spaced(a) && Spaced(b)
  {
    var n := |a|;
    assert s[n] == ' ';
    assert a != [] by { assert s[0] != ' '; }
    assert b != [] by { assert s[|s| - 1] != ' '; }
    assert a == s[..n] && b == s[n + 1..];
    assert a[n - 1] == s[n - 1] && NoDoubleSpaceAt(s, n - 1);
    assert b[0] == s[n + 1] && NoDoubleSpaceAt(s, n);
    forall i: nat | i + 1 < |a| ensures NoDoubleSpaceAt(a, i) {
      assert NoDoubleSpaceAt(s, i);
      assert a[i] == s[i] && a[i + 1] == s[i + 1];
    }
    forall i: nat | i + 1 < |b| ensures NoDoubleSpaceAt(b, i) {
      assert NoDoubleSpaceAt(s, n + 1 + i);
      assert b[i] == s[n + 1 + i] && b[i + 1] == s[n + 2 + i];
    }
  }

  // ---------------------------------------------------------------------
  // forceSplitSentence
  // ---------------------------------------------------------------------

  /** How many leading words fit in `m` characters when joined by spaces:
      words are taken one at a time and the scan stops at the first prefix
      that is too long. */
  function FitCount(words: seq<string>, m: nat, i: nat): (k: nat)
    requires i <= |words|
    ensures i <= k <= |words|
    ensures k > i ==> |Join(words[..k], " ")| <= m
    ensures k < |words| ==> |Join(words[..k + 1], " ")| > m
    decreases |words| - i
  {
    if i == |words| then i
    else if |Join(words[..i + 1], " ")| <= m then FitCount(words, m, i + 1)
    else i
  }

  /** `forceSplitSentence(s, m)`: the whole sentence and no rest when it is
      short enough; otherwise the longest fitting word prefix and the
      remaining words, or, when no word prefix is usable, the first `m`
      characters and the rest. `None` is the source's `null`. */
  function ForceSplit(s: string, m: nat): (string, Option<string>) {
    if |s| <= m then (s, None)
    else
      var words := Split(s, ' ');
      var k := FitCount(words, m, 0);
      var first := if k == 0 then "" else Join(words[..k], " ");
      if first == "" then (s[..m], Some(s[m..]))
      else (first, if k < |words| then Some(Join(words[k..], " ")) else None)
  }

  /** The text starts with its first word, followed by nothing or by a
      space. */
  lemma FirstWordPrefix(s: string)
    ensures var w := Split(s, ' ')[0];
      |w| <= |s| && s[..|w|] == w && (|w| < |s| ==> s[|w|] == ' ')
  {
    var words := Split(s, ' ');
    JoinSplit(s, ' ');
    if |words| > 1 {
      JoinCons(words[0], words[1..], " ");
      assert [words[0]] + words[1..] == words;
    }
  }

  /** A join of a non-empty word prefix starts with the first word. */
  lemma JoinStartsWithFirst(parts: seq<string>, sep: string)
    requires parts != []
    ensures |Join(parts, sep)| >= |parts[0]|
  {
  }

  /** The part boundaries of a word split. */
  lemma WordSplitJoin(s: string, m: nat)
    requires |s| > m
    ensures var words := Split(s, ' ');
      var k := FitCount(words, m, 0);
      0 < k ==> k < |words| && Join(words[..k], " ") + " " + Join(words[k..], " ") == s
  {
    var words := Split(s, ' ');
    var k := FitCount(words, m, 0);
    if 0 < k {
      JoinSplit(s, ' ');
      assert words[..|words|] == words;
      JoinAppend(words[..k], words[k..], " ");
      assert words[..k] + words[k..] == words;
    }
  }

  /** In a spaced sentence that must be cut inside its first word, the cut
      leaves no space in the first part and no space at the start of the
      second. */
  lemma CharSplitInsideFirstWord(s: string, m: nat)
    requires Spaced(s) && |s| > m
    requires FitCount(Split(s, ' '), m, 0) == 0 || Join(Split(s, ' ')[..FitCount(Split(s, ' '), m, 0)], " ") == ""
    ensures m < |Split(s, ' ')[0]|
  {
    var words := Split(s, ' ');
    var k := FitCount(words, m, 0);
    FirstWordPrefix(s);
    SpacedWords(s);
    assert words[0] != "";
    if k > 0 {
      JoinStartsWithFirst(words[..k], " ");
      assert false;
    }
    assert words[..1] == [words[0]];
  }

  /** What `forceSplitSentence` guarantees: a short sentence is returned
      whole; a long one yields a first part of at most `m` characters and a
      rest, and the two put back together (with the space a word split
      removes) give the sentence. */
  lemma ForceSplitParts(s: string, m: nat)
    ensures |s| <= m ==> ForceSplit(s, m) == (s, None)
    ensures |s| > m ==> ForceSplit(s, m).1.Some? && |ForceSplit(s, m).0| <= m
    ensures |s| > m ==> var (first, rest) := ForceSplit(s, m);
      first + " " + rest.value == s || (first == s[..m] && rest.value == s[m..])
  {
    var words := Split(s, ' ');
    var k := FitCount(words, m, 0);
    if |s| > m {
      WordSplitJoin(s, m);
    }
  }

  /** With a positive budget a long sentence always loses characters to the
      first part: the first part is non-empty and the rest is shorter than
      the sentence, so storing it back makes progress. */
  lemma ForceSplitShrinks(s: string, m: nat)
    requires m > 0 && |s| > m
    ensures ForceSplit(s, m).0 != "" && ForceSplit(s, m).1.Some?
    ensures |ForceSplit(s, m).1.value| < |s|
  {
    ForceSplitParts(s, m);
  }

  /** The two parts together keep every non-whitespace character, in order;
      `None` stands for an empty rest. */
  lemma ForceSplitContent(s: string, m: nat)
    ensures var (first, rest) := ForceSplit(s, m);
      Content(first) + Content(if rest.Some? then rest.value else "") == Content(s)
  {
    ForceSplitParts(s, m);
    PartsContent(s, m, ForceSplit(s, m).0, ForceSplit(s, m).1);
  }

  /** Either way of splitting `s` keeps its non-whitespace characters. */
  lemma PartsContent(s: string, m: nat, first: string, rest: Option<string>)
    requires rest.None? ==> first == s
    requires rest.Some? ==> first + " " + rest.value == s || (m <= |s| && first == s[..m] && rest.value == s[m..])
    ensures Content(first) + Content(if rest.Some? then rest.value else "") == Content(s)
  {
    if rest.Some? {
      var r := rest.value;
      if first + " " + r == s {
        ContentAppend(first + " ", r);
        ContentAppend(first, " ");
        assert Content(" ") == "";
      } else {
        assert s == first + r;
        ContentAppend(first, r);
      }
    } else {
      assert Content("") == "";
    }
  }

  /** Splitting a spaced sentence with a positive budget gives spaced parts. */
  lemma ForceSplitSpaced(s: string, m: nat)
    requires Spaced(s) && m > 0 && |s| > m
    ensures ForceSplit(s, m).1.Some?
    ensures Spaced(ForceSplit(s, m).0) && Spaced(ForceSplit(s, m).1.value)
  {
    ForceSplitParts(s, m);
    var (first, rest) := ForceSplit(s, m);
    var words := Split(s, ' ');
    var k := FitCount(words, m, 0);
    var joined := if k == 0 then "" else Join(words[..k], " ");
    if joined == "" {
      CharSplitInsideFirstWord(s, m);
      FirstWordPrefix(s);
      CharSplitSpaced(s, m, |words[0]|);
    } else {
      WordSplitJoin(s, m);
      SpacedAroundSpace(s, first, rest.value);
    }
  }

  /** Cutting a spaced text at `m`, strictly inside a space-free prefix of
      length `w`, leaves two spaced texts. */
  lemma CharSplitSpaced(s: string, m: nat, w: nat)
    requires Spaced(s) && 0 < m < w <= |s| && ' ' !in s[..w]
    ensures Spaced(s[..m]) && Spaced(s[m..])
  {
    assert s[m] == s[..w][m];
    assert s[m - 1] == s[..w][m - 1];
    forall i | 0 <= i < m ensures s[..m][i] != ' ' {
      assert s[..m][i] == s[..w][i];
    }
    var b := s[m..];
    forall i: nat | i + 1 < |b| ensures NoDoubleSpaceAt(b, i) {
      assert NoDoubleSpaceAt(s, m + i);
      assert b[i] == s[m + i] && b[i + 1] == s[m + i + 1];
    }
  }
}
