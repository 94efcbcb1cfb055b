/** The JavaScript string operations the handwriting core is built from:
    the whitespace class `\s` (which is also what `String.prototype.trim`
    removes), `trim`, `replace(/\s+/g, ' ')`, `split(' ')` / `join(' ')`,
    ASCII lower-casing, substring tests and the decimal rendering of a
    natural number. */
module Strings {

  // ---------------------------------------------------------------------
  // Whitespace and trimming
  // ---------------------------------------------------------------------

  /** The characters matched by `\s` in a JavaScript regular expression; the
      same set is removed by `String.prototype.trim`. */
  predicate IsWhitespace(c: char) {
    var n := c as int;
    n == 0x09 || n == 0x0A || n == 0x0B || n == 0x0C || n == 0x0D || n == 0x20
    || n == 0xA0 || n == 0x1680 || (0x2000 <= n <= 0x200A) || n == 0x2028
    || n == 0x2029 || n == 0x202F || n == 0x205F || n == 0x3000 || n == 0xFEFF
  }

  predicate AllWhitespace(s: string) {
    forall i | 0 <= i < |s| :: IsWhitespace(s[i])
  }

  /** `s.trim().length === 0` */
  predicate IsBlank(s: string) {
    AllWhitespace(s)
  }

  /** Neither end of `s` is whitespace. */
  predicate IsTrimmed(s: string) {
    s == [] || (!IsWhitespace(s[0]) && !IsWhitespace(s[|s| - 1]))
  }

  /** The length of the whitespace run at the start of `s`. */
  function LeadingWs(s: string): (k: nat)
    ensures k <= |s|
    ensures forall i | 0 <= i < k :: IsWhitespace(s[i])
    ensures k < |s| ==> !IsWhitespace(s[k])
  {
    if s != [] && IsWhitespace(s[0]) then 1 + LeadingWs(s[1..]) else 0
  }

  /** The length of the whitespace run at the end of `s`. */
  function TrailingWs(s: string): (k: nat)
    ensures k <= |s|
    ensures forall i | |s| - k <= i < |s| :: IsWhitespace(s[i])
    ensures k < |s| ==> !IsWhitespace(s[|s| - 1 - k])
  {
    if s != [] && IsWhitespace(s[|s| - 1]) then 1 + TrailingWs(s[..|s| - 1]) else 0
  }

  /** `String.prototype.trim`: `s` without its leading and trailing
      whitespace. The result is the slice of `s` between the two runs. */
  function Trim(s: string): (r: string)
    ensures IsTrimmed(r)
    ensures r == [] <==> AllWhitespace(s)
    ensures LeadingWs(s) < |s| ==> LeadingWs(s) < |s| - TrailingWs(s)
    ensures r == if AllWhitespace(s) then [] else s[LeadingWs(s)..|s| - TrailingWs(s)]
  {
    var a := LeadingWs(s);
    if a == |s| then []
    else
      var t := TrailingWs(s);
      assert !IsWhitespace(s[a]);
      s[a..|s| - t]
  }

  lemma TrimmedIsFixed(s: string)
    requires IsTrimmed(s)
    ensures Trim(s) == s
  {
    if s != [] {
      assert LeadingWs(s) == 0;
      assert TrailingWs(s) == 0;
    }
  }

  // ---------------------------------------------------------------------
  // Content: the non-whitespace characters of a string, in order
  // ---------------------------------------------------------------------

  /** `s` with every whitespace character removed. Every text transformation
      of the core only adds, removes or moves whitespace, so `Content` is what
      they preserve. */
  function Content(s: string): (r: string)
    ensures |r| <= |s|
  {
    if s == [] then []
    else (if IsWhitespace(s[0]) then [] else [s[0]]) + Content(s[1..])
  }

  lemma {:induction false} ContentAppend(a: string, b: string)
    ensures Content(a + b) == Content(a) + Content(b)
  {
    if a == [] {
      assert a + b == b;
    } else {
      assert (a + b)[0] == a[0] && (a + b)[1..] == a[1..] + b;
      ContentAppend(a[1..], b);
    }
  }

  lemma {:induction false} ContentEmptyIffBlank(s: string)
    ensures Content(s) == [] <==> AllWhitespace(s)
  {
    if s != [] {
      ContentEmptyIffBlank(s[1..]);
      if AllWhitespace(s[1..]) && IsWhitespace(s[0]) {
        forall i | 0 <= i < |s| ensures IsWhitespace(s[i]) {
          if i > 0 { assert s[i] == s[1..][i - 1]; }
        }
      }
    }
  }

  /** The content of a prefix is that of a shorter prefix followed by the
      content of the slice between them. */
  lemma ContentOfPrefix(s: string, a: nat, b: nat)
    requires a <= b <= |s|
    ensures Content(s[..b]) == Content(s[..a]) + Content(s[a..b])
  {
    assert s[..b] == s[..a] + s[a..b];
    ContentAppend(s[..a], s[a..b]);
  }

  lemma ContentOfSlices(s: string, a: nat, b: nat)
    requires a <= b <= |s|
    requires AllWhitespace(s[..a]) && AllWhitespace(s[b..])
    ensures Content(s[a..b]) == Content(s)
  {
    assert s == s[..a] + s[a..b] + s[b..];
    ContentAppend(s[..a] + s[a..b], s[b..]);
    ContentAppend(s[..a], s[a..b]);
    ContentEmptyIffBlank(s[..a]);
    ContentEmptyIffBlank(s[b..]);
  }

  /** Trimming never removes a character that is not whitespace. */
  lemma TrimContent(s: string)
    ensures Content(Trim(s)) == Content(s)
  {
    if AllWhitespace(s) {
      ContentEmptyIffBlank(s);
    } else {
      var a, t := LeadingWs(s), TrailingWs(s);
      assert AllWhitespace(s[..a]);
      assert AllWhitespace(s[|s| - t..]);
      ContentOfSlices(s, a, |s| - t);
    }
  }

  // ---------------------------------------------------------------------
  // Single-spaced and normalised text
  // ---------------------------------------------------------------------

  /** The only whitespace is the plain space, and no two spaces are adjacent. */
  predicate SingleSpaced(s: string) {
    (forall i | 0 <= i < |s| :: IsWhitespace(s[i]) ==> s[i] == ' ')
    && (forall i | 0 <= i < |s| - 1 :: !(s[i] == ' ' && s[i + 1] == ' '))
  }

  /** What `replace(/\s+/g, ' ').trim()` produces. */
  predicate Normalised(s: string) {
    SingleSpaced(s) && IsTrimmed(s)
  }

  lemma SingleSpacedSlice(s: string, a: nat, b: nat)
    requires SingleSpaced(s) && a <= b <= |s|
    ensures SingleSpaced(s[a..b])
  {
    var t := s[a..b];
    forall i | 0 <= i < |t| - 1 ensures !(t[i] == ' ' && t[i + 1] == ' ') {
      assert t[i] == s[a + i] && t[i + 1] == s[a + i + 1];
    }
  }

  lemma TrimSingleSpaced(s: string)
    requires SingleSpaced(s)
    ensures Normalised(Trim(s))
  {
    if !AllWhitespace(s) {
      SingleSpacedSlice(s, LeadingWs(s), |s| - TrailingWs(s));
    }
  }

  /** `replace(/\s+/g, ' ')`: every maximal run of whitespace becomes one
      space. */
  function Collapse(s: string): (r: string)
    ensures SingleSpaced(r)
    ensures r == [] <==> s == []
    ensures r != [] ==> (r[0] == ' ' <==> IsWhitespace(s[0]))
    decreases |s|
  {
    if s == [] then []
    else if IsWhitespace(s[0]) then
      var rest := s[LeadingWs(s)..];
      var c := Collapse(rest);
      assert c != [] ==> c[0] != ' ';
      [' '] + c
    else
      var c := Collapse(s[1..]);
      assert c != [] && c[0] == ' ' ==> IsWhitespace(s[1]);
      [s[0]] + c
  }

  lemma {:induction false} CollapseContent(s: string)
    ensures Content(Collapse(s)) == Content(s)
    decreases |s|
  {
    if s != [] {
      if IsWhitespace(s[0]) {
        var k := LeadingWs(s);
        CollapseContent(s[k..]);
        ContentAppend([' '], Collapse(s[k..]));
        assert s == s[..k] + s[k..];
        ContentAppend(s[..k], s[k..]);
        assert AllWhitespace(s[..k]);
        ContentEmptyIffBlank(s[..k]);
      } else {
        CollapseContent(s[1..]);
        ContentAppend([s[0]], Collapse(s[1..]));
      }
    }
  }

  /** The three facts of `LeadingWs`'s contract pin it down. */
  lemma LeadingWsUnique(s: string, k: nat)
    requires k <= |s|
    requires forall i | 0 <= i < k :: IsWhitespace(s[i])
    requires k < |s| ==> !IsWhitespace(s[k])
    ensures LeadingWs(s) == k
  {
  }

  /** A non-empty run of whitespace alone collapses to one space. */
  lemma CollapseWhitespaceRun(w: string)
    requires w != [] && AllWhitespace(w)
    ensures Collapse(w) == " "
  {
    LeadingWsUnique(w, |w|);
    assert w[|w|..] == [];
  }

  /** Text without whitespace comes out of the collapse unchanged. */
  lemma {:induction false} CollapseKeepsWords(s: string)
    requires forall i | 0 <= i < |s| :: !IsWhitespace(s[i])
    ensures Collapse(s) == s
    decreases |s|
  {
    if s != [] {
      CollapseKeepsWords(s[1..]);
      assert s == [s[0]] + s[1..];
    }
  }

  /** The collapse works run by run: cutting the text anywhere but inside a
      whitespace run collapses the two sides separately. */
  lemma {:induction false} CollapseAppend(a: string, b: string)
    requires a == [] || b == [] || !IsWhitespace(a[|a| - 1]) || !IsWhitespace(b[0])
    ensures Collapse(a + b) == Collapse(a) + Collapse(b)
    decreases |a|
  {
    if a == [] {
      assert a + b == b;
    } else if b == [] {
      assert a + b == a;
    } else if !IsWhitespace(a[0]) {
      assert (a + b)[0] == a[0] && (a + b)[1..] == a[1..] + b;
      assert Collapse(a + b) == [a[0]] + Collapse(a[1..] + b);
      CollapseAppend(a[1..], b);
      StringAssoc([a[0]], Collapse(a[1..]), Collapse(b));
    } else {
      var k := LeadingWs(a);
      LeadingWsUnique(a + b, k);
      assert (a + b)[k..] == a[k..] + b;
      assert Collapse(a + b) == [' '] + Collapse(a[k..] + b);
      if k < |a| {
        CollapseAppend(a[k..], b);
        StringAssoc([' '], Collapse(a[k..]), Collapse(b));
      } else {
        assert a[k..] == [];
        assert Collapse(a) == [' '];
      }
    }
  }

  /** A whitespace run in front of text that starts with no whitespace
      becomes one space. */
  lemma CollapseAfterRun(w: string, y: string)
    requires w != [] && AllWhitespace(w)
    requires y == [] || !IsWhitespace(y[0])
    ensures Collapse(w + y) == " " + Collapse(y)
  {
    CollapseWhitespaceRun(w);
    CollapseAppend(w, y);
  }

  /** `replace(/\s+/g, ' ')` in place: a maximal whitespace run `w` between
      `x` and `y` becomes exactly one space, and the two sides collapse on
      their own. With `CollapseKeepsWords` this determines the result on
      every input. */
  lemma CollapseRun(x: string, w: string, y: string)
    requires w != [] && AllWhitespace(w)
    requires x == [] || !IsWhitespace(x[|x| - 1])
    requires y == [] || !IsWhitespace(y[0])
    ensures Collapse(x + w + y) == Collapse(x) + " " + Collapse(y)
  {
    StringAssoc(x, w, y);
    CollapseAfterRun(w, y);
    CollapseAppend(x, w + y);
  }

  lemma StringAssoc(a: string, b: string, c: string)
    ensures a + b + c == a + (b + c)
    ensures b != [] ==> (b + c)[0] == b[0]
  {
  }

  // ---------------------------------------------------------------------
  // split(sep) and join(sep)
  // ---------------------------------------------------------------------

  /** `s.split(sep)` for a one-character separator: always at least one
      part, and no part contains the separator. */
  function Split(s: string, sep: char): (parts: seq<string>)
    ensures |parts| >= 1
    ensures forall i | 0 <= i < |parts| :: sep !in parts[i]
  {
    if s == [] then [""]
    else
      var rest := Split(s[1..], sep);
      if s[0] == sep then [""] + rest
      else [[s[0]] + rest[0]] + rest[1..]
  }

  /** `parts.join(sep)` */
  function Join(parts: seq<string>, sep: string): string {
    if |parts| == 0 then ""
    else if |parts| == 1 then parts[0]
    else parts[0] + sep + Join(parts[1..], sep)
  }

  /** The concatenation of `parts` (a join with the empty separator). */
  function Concat(parts: seq<string>): string {
    if parts == [] then "" else parts[0] + Concat(parts[1..])
  }

  lemma {:induction false} ConcatAppend(a: seq<string>, b: seq<string>)
    ensures Concat(a + b) == Concat(a) + Concat(b)
  {
    if a == [] {
      assert a + b == b;
    } else {
      assert (a + b)[0] == a[0] && (a + b)[1..] == a[1..] + b;
      ConcatAppend(a[1..], b);
    }
  }

  lemma {:induction false} JoinAppend(a: seq<string>, b: seq<string>, sep: string)
    requires a != [] && b != []
    ensures Join(a + b, sep) == Join(a, sep) + sep + Join(b, sep)
  {
    if |a| > 1 {
      assert (a + b)[1..] == a[1..] + b;
      JoinAppend(a[1..], b, sep);
    } else {
      assert (a + b)[1..] == b;
    }
  }

  /** Splitting and joining back with the same separator gives the string
      back. */
  lemma {:induction false} JoinSplit(s: string, sep: char)
    ensures Join(Split(s, sep), [sep]) == s
  {
    if s != [] {
      JoinSplit(s[1..], sep);
      var rest := Split(s[1..], sep);
      if s[0] == sep {
        assert ([""] + rest)[1..] == rest;
      } else if |rest| > 1 {
        assert ([[s[0]] + rest[0]] + rest[1..])[1..] == rest[1..];
      }
    }
  }

  lemma {:induction false} SplitAround(a: string, b: string, sep: char)
    ensures Split(a + [sep] + b, sep) == Split(a, sep) + Split(b, sep)
  {
    if a == [] {
      assert a + [sep] + b == [sep] + b;
      assert ([sep] + b)[1..] == b;
    } else {
      assert (a + [sep] + b)[1..] == a[1..] + [sep] + b;
      SplitAround(a[1..], b, sep);
    }
  }

  lemma {:induction false} SplitWithoutSep(s: string, sep: char)
    requires sep !in s
    ensures Split(s, sep) == [s]
  {
    if s != [] {
      SplitWithoutSep(s[1..], sep);
      assert [s[0]] + s[1..] == s;
    }
  }

  /** Joining parts that do not contain the separator and splitting again
      gives the parts back. */
  lemma {:induction false} SplitJoin(parts: seq<string>, sep: char)
    requires |parts| >= 1
    requires forall i | 0 <= i < |parts| :: sep !in parts[i]
    ensures Split(Join(parts, [sep]), sep) == parts
  {
    if |parts| == 1 {
      SplitWithoutSep(parts[0], sep);
    } else {
      SplitJoin(parts[1..], sep);
      SplitWithoutSep(parts[0], sep);
      SplitAround(parts[0], Join(parts[1..], [sep]), sep);
      assert [parts[0]] + parts[1..] == parts;
    }
  }

  /** Every space-separated word of `s` is non-empty: `s` is non-empty, has no
      space at either end and no two adjacent spaces. */
  predicate WordsNonEmpty(s: string) {
    var w := Split(s, ' ');
    forall i | 0 <= i < |w| :: w[i] != ""
  }

  lemma {:induction false} LaterWordsNonEmpty(s: string)
    requires s != [] && s[|s| - 1] != ' '
    requires forall i | 0 <= i < |s| - 1 :: !(s[i] == ' ' && s[i + 1] == ' ')
    ensures forall i | 1 <= i < |Split(s, ' ')| :: Split(s, ' ')[i] != ""
    ensures Split(s, ' ')[0] == "" <==> s[0] == ' '
  {
    var t := s[1..];
    if t != [] {
      forall i | 0 <= i < |t| - 1 ensures !(t[i] == ' ' && t[i + 1] == ' ') {
        assert t[i] == s[i + 1] && t[i + 1] == s[i + 2];
      }
      LaterWordsNonEmpty(t);
    }
  }

  /** Normalised non-empty text has no empty word. */
  lemma NormalisedWords(s: string)
    requires Normalised(s) && s != []
    ensures WordsNonEmpty(s)
  {
    LaterWordsNonEmpty(s);
  }

  /** Content of a join with a whitespace separator. */
  lemma {:induction false} ContentJoin(parts: seq<string>)
    ensures Content(Join(parts, " ")) == Content(Concat(parts))
  {
    if |parts| == 1 {
      assert Concat(parts) == parts[0] + Concat(parts[1..]) && parts[1..] == [];
      assert Concat(parts) == parts[0];
    } else if |parts| > 1 {
      ContentJoin(parts[1..]);
      ContentAppend(parts[0] + " ", Join(parts[1..], " "));
      ContentAppend(parts[0], " ");
      ContentAppend(parts[0], Concat(parts[1..]));
      assert Content(" ") == [];
      assert Concat(parts) == parts[0] + Concat(parts[1..]);
    }
  }

  // ---------------------------------------------------------------------
  // Lower case and substrings
  // ---------------------------------------------------------------------

  function LowerChar(c: char): char {
    if 'A' <= c <= 'Z' then (c as int + 32) as char else c
  }

  /** `toLowerCase()` on the ASCII letters. */
  function ToLower(s: string): (r: string)
    ensures |r| == |s|
    ensures forall i | 0 <= i < |s| :: r[i] == LowerChar(s[i])
  {
    if s == [] then [] else [LowerChar(s[0])] + ToLower(s[1..])
  }

  /** Lower-casing twice is lower-casing once. */
  lemma LowerIdempotent(s: string)
    ensures ToLower(ToLower(s)) == ToLower(s)
  {
    var once := ToLower(s);
    assert forall i | 0 <= i < |s| :: LowerChar(once[i]) == once[i];
  }

  /** A string without upper-case letters is its own lower-case form. */
  lemma LowerOfLowerCase(s: string)
    requires forall i | 0 <= i < |s| :: !('A' <= s[i] <= 'Z')
    ensures ToLower(s) == s
  {
    assert forall i | 0 <= i < |s| :: ToLower(s)[i] == s[i];
  }

  /** `sub` occurs in `s` starting at index `i`. */
  predicate OccursAt(s: string, sub: string, i: int) {
    0 <= i <= |s| - |sub| && s[i..i + |sub|] == sub
  }

  /** `s.includes(sub)` */
  predicate Contains(s: string, sub: string) {
    exists i | 0 <= i <= |s| - |sub| :: OccursAt(s, sub, i)
  }

  /** `s.endsWith(suffix)` */
  predicate EndsWith(s: string, suffix: string) {
    |suffix| <= |s| && s[|s| - |suffix|..] == suffix
  }

  // ---------------------------------------------------------------------
  // Decimal rendering of naturals (`n.toString()`, `${n}`)
  // ---------------------------------------------------------------------

  predicate IsDigit(c: char) { '0' <= c <= '9' }

  function DigitChar(d: nat): char
    requires d < 10
  {
    ('0' as int + d) as char
  }

  function DigitValue(c: char): nat
    requires IsDigit(c)
  {
    c as int - '0' as int
  }

  /** The decimal numeral of `n`, without leading zeros. */
  function NatToString(n: nat): (r: string)
    ensures r != [] && forall i | 0 <= i < |r| :: IsDigit(r[i])
    ensures |r| > 1 ==> r[0] != '0'
  {
    if n < 10 then [DigitChar(n)] else NatToString(n / 10) + [DigitChar(n % 10)]
  }

  function ParseNat(s: string): nat
    requires forall i | 0 <= i < |s| :: IsDigit(s[i])
  {
    if s == [] then 0 else ParseNat(s[..|s| - 1]) * 10 + DigitValue(s[|s| - 1])
  }

  /** Reading the numeral back gives the number. */
  lemma {:induction false} NatToStringRoundTrip(n: nat)
    ensures ParseNat(NatToString(n)) == n
  {
    if n >= 10 {
      NatToStringRoundTrip(n / 10);
      var r := NatToString(n);
      assert r[..|r| - 1] == NatToString(n / 10);
    }
  }
}
