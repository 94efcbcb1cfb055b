/** Font metadata checks and CSS string helpers of lib/font-utils.ts. */
module FontUtils {
  import opened Wrappers
  import opened Strings
  import opened Fonts

  /** `validateFontFile(font)`: the path and file name are present, the file
      name ends in `.ttf` in any letter case, and family, name and id are
      present. */
  function ValidateFontMetadata(font: FontMetadata): (ok: bool)
    ensures ok <==>
      && font.filePath != "" && font.fileName != ""
      && EndsWith(ToLower(font.fileName), ".ttf")
      && font.fontFamily != "" && font.name != "" && font.id != ""
  {
    if font.filePath == "" || font.fileName == "" then false
    else if !EndsWith(ToLower(font.fileName), ".ttf") then false
    else if font.fontFamily == "" || font.name == "" || font.id == "" then false
    else true
  }

  /** Every catalogue font passes the check. */
  lemma CatalogueFontsValid()
    ensures forall k | 0 <= k < |AVAILABLE_FONTS| :: ValidateFontMetadata(AVAILABLE_FONTS[k])
  {
    var stems := ["RobotoMono-ExtraLightItalic", "JetBrainsMono-ExtraLightItalic", "SourceCodePro-ExtraLightItalic"];
    forall k | 0 <= k < |AVAILABLE_FONTS| ensures ValidateFontMetadata(AVAILABLE_FONTS[k]) {
      assert AVAILABLE_FONTS[k].fileName == stems[k] + ".ttf";
      ValidWithTtfName(AVAILABLE_FONTS[k], stems[k]);
    }
  }

  lemma ValidWithTtfName(font: FontMetadata, stem: string)
    requires font.fileName == stem + ".ttf"
    requires font.filePath != "" && font.fontFamily != "" && font.name != "" && font.id != ""
    ensures ValidateFontMetadata(font)
  {
    TtfName(stem);
  }

  /** A name ending in the lower-case extension passes the extension test. */
  lemma TtfName(stem: string)
    ensures EndsWith(ToLower(stem + ".ttf"), ".ttf")
  {
    var s := stem + ".ttf";
    var l := ToLower(s);
    assert l[|s| - 4..] == ".ttf" by {
      assert l[|s| - 4] == LowerChar('.');
      assert l[|s| - 3] == LowerChar('t');
      assert l[|s| - 2] == LowerChar('t');
      assert l[|s| - 1] == LowerChar('f');
    }
  }

  /** The extension test ignores letter case: lower-casing the file name does
      not change the verdict. */
  lemma ValidationIgnoresCase(font: FontMetadata)
    ensures ValidateFontMetadata(font.(fileName := ToLower(font.fileName))) == ValidateFontMetadata(font)
  {
    LowerIdempotent(font.fileName);
  }

  /** `getSizeValue(sizeId)`: the CSS pixel size of a size id, `18px` for an
      unknown id. */
  function GetSizeValue(sizeId: string): (r: string)
    ensures sizeId != "small" && sizeId != "large" ==> r == "18px"
  {
    if sizeId == "small" then "14px"
    else if sizeId == "medium" then "18px"
    else if sizeId == "large" then "24px"
    else "18px"
  }

  /** The pixel sizes agree with the size catalogue, and an unknown id gets
      the medium entry's size. */
  lemma SizeValueMatchesCatalogue(sizeId: string)
    ensures forall k | 0 <= k < |FONT_SIZES| ::
      GetSizeValue(FONT_SIZES[k].id) == NatToString(FONT_SIZES[k].size) + "px"
    ensures GetSizeValue(sizeId) == NatToString(
      if GetFontSizeById(sizeId).Some? then GetFontSizeById(sizeId).value.size else FONT_SIZES[1].size) + "px"
  {
    assert NatToString(14) == "14";
    assert NatToString(18) == "18";
    assert NatToString(24) == "24";
    assert GetSizeValue(FONT_SIZES[0].id) == NatToString(FONT_SIZES[0].size) + "px";
    assert GetSizeValue(FONT_SIZES[1].id) == NatToString(FONT_SIZES[1].size) + "px";
    assert GetSizeValue(FONT_SIZES[2].id) == NatToString(FONT_SIZES[2].size) + "px";
    forall k | 0 <= k < |FONT_SIZES|
      ensures GetSizeValue(FONT_SIZES[k].id) == NatToString(FONT_SIZES[k].size) + "px"
    {
      assert k == 0 || k == 1 || k == 2;
    }
    LookupListedIds();
    if GetFontSizeById(sizeId).None? {
      assert sizeId != FONT_SIZES[0].id && sizeId != FONT_SIZES[2].id;
    }
  }

  // ---------------------------------------------------------------------
  // extractFontFamily: the first match of
  // /font-family:\s*['"]?([^'";]+)['"]?/i, group 1, trimmed
  // ---------------------------------------------------------------------

  const HEADER: string := "font-family:"

  /** The header matches at `p`, ignoring the case of ASCII letters. */
  predicate HeaderAt(s: string, p: nat) {
    p + |HEADER| <= |s| && ToLower(s[p..p + |HEADER|]) == HEADER
  }

  predicate IsQuote(c: char) {
    c == '\'' || c == '"'
  }

  /** The characters of `[^'";]`. */
  predicate InFamilyClass(c: char) {
    c != '\'' && c != '"' && c != ';'
  }

  function ClassRunEnd(s: string, i: nat): (j: nat)
    requires i <= |s|
    ensures i <= j <= |s|
    ensures forall k | i <= k < j :: InFamilyClass(s[k])
    ensures j < |s| ==> !InFamilyClass(s[j])
    decreases |s| - i
  {
    if i < |s| && InFamilyClass(s[i]) then ClassRunEnd(s, i + 1) else i
  }

  /** Group 1 of a match whose header is at `p`, with the backtracking of the
      regular expression written out: after the longest whitespace run, an
      opening quote followed by a class character, else a class character,
      else (giving back one whitespace character) that whitespace character;
      otherwise no match at `p`. */
  function CaptureAt(s: string, p: nat): (r: Option<string>)
    requires HeaderAt(s, p)
    ensures r.Some? ==> r.value != [] && forall i | 0 <= i < |r.value| :: InFamilyClass(r.value[i])
  {
    var a := p + |HEADER|;
    var b := a + LeadingWs(s[a..]);
    assert forall i | a <= i < b :: IsWhitespace(s[i]) by {
      forall i | a <= i < b ensures IsWhitespace(s[i]) {
        assert s[i] == s[a..][i - a];
      }
    }
    if b + 1 < |s| && IsQuote(s[b]) && InFamilyClass(s[b + 1]) then Some(s[b + 1..ClassRunEnd(s, b + 1)])
    else if b < |s| && InFamilyClass(s[b]) then Some(s[b..ClassRunEnd(s, b)])
    else if b > a then Some(s[b - 1..b])
    else None
  }

  /** The capture of the leftmost match at or after `p`. */
  function MatchFrom(s: string, p: nat): (r: Option<string>)
    requires p <= |s|
    ensures r.Some? ==> r.value != [] && forall i | 0 <= i < |r.value| :: InFamilyClass(r.value[i])
    ensures (forall q | p <= q <= |s| :: !HeaderAt(s, q)) ==> r.None?
    decreases |s| - p
  {
    if p + |HEADER| > |s| then None
    else if HeaderAt(s, p) && CaptureAt(s, p).Some? then CaptureAt(s, p)
    else MatchFrom(s, p + 1)
  }

  /** `extractFontFamily(css)`: the trimmed family name after the first
      `font-family:`, which carries no quote or semicolon; none when the header
      does not occur. */
  function ExtractFontFamily(css: string): (r: Option<string>)
    ensures r.Some? ==> IsTrimmed(r.value)
    ensures r.Some? ==> forall i | 0 <= i < |r.value| :: InFamilyClass(r.value[i])
    ensures (forall p | 0 <= p <= |css| :: !HeaderAt(css, p)) ==> r.None?
  {
    match MatchFrom(css, 0)
    case None => None
    case Some(c) =>
      var t := Trim(c);
      assert forall i | 0 <= i < |t| :: InFamilyClass(t[i]) by {
        if t != [] {
          FamilyClassSlice(c, LeadingWs(c), |c| - TrailingWs(c));
        }
      }
      Some(t)
  }

  /** A slice of a string of family-name characters has only such
      characters. */
  lemma FamilyClassSlice(s: string, a: nat, b: nat)
    requires a <= b <= |s| && forall i | 0 <= i < |s| :: InFamilyClass(s[i])
    ensures forall i | 0 <= i < b - a :: InFamilyClass(s[a..b][i])
  {
    forall i | 0 <= i < b - a ensures InFamilyClass(s[a..b][i]) {
      assert s[a..b][i] == s[a + i];
    }
  }

  /** Skipping positions where no header occurs does not change the match. */
  lemma {:induction false} MatchFromSkips(s: string, p: nat, q: nat)
    requires p <= q <= |s|
    requires forall k | p <= k < q :: !HeaderAt(s, k)
    ensures MatchFrom(s, p) == MatchFrom(s, q)
    decreases q - p
  {
    if p < q {
      MatchFromSkips(s, p + 1, q);
      if p + |HEADER| > |s| {
        assert MatchFrom(s, p + 1) == None;
      } else {
        assert !HeaderAt(s, p);
      }
    }
  }

  /** A header needs a colon at its last position. */
  lemma HeaderNeedsColon(s: string, p: nat)
    ensures HeaderAt(s, p) ==> s[p + 11] == ':'
  {
    if HeaderAt(s, p) {
      assert ToLower(s[p..p + 12])[11] == LowerChar(s[p + 11]);
    }
  }

  lemma HeaderIsLowerCase()
    ensures ToLower(HEADER) == HEADER
  {
    assert forall i | 0 <= i < |HEADER| :: !('A' <= HEADER[i] <= 'Z');
    LowerOfLowerCase(HEADER);
  }

  /** What a generated `@font-face` rule has before its `font-family:`. */
  const FACE_LEAD: string := "\n    @font-face {\n      "

  /** The text up to and including the opening quote of a generated rule. */
  function FacePrefix(): string {
    FACE_LEAD + HEADER + " '"
  }

  lemma FaceLeadShape()
    ensures |FACE_LEAD| == 24 && ':' !in FACE_LEAD
    ensures |HEADER| == 12 && ':' !in HEADER[..11]
    ensures FacePrefix() == FACE_OPEN
  {
  }

  /** A family name that the CSS round trip can carry: non-empty, trimmed, and
      free of quotes and semicolons. */
  predicate PlainFamily(family: string) {
    family != [] && IsTrimmed(family) && forall i | 0 <= i < |family| :: InFamilyClass(family[i])
  }

  /** No header starts before the one that follows the lead. */
  lemma NoEarlierHeader(s: string)
    requires |s| >= 36 && s[..24] == FACE_LEAD && s[24..36] == HEADER
    ensures forall k | 0 <= k < 24 :: !HeaderAt(s, k)
  {
    FaceLeadShape();
    forall k | 0 <= k < 24 ensures !HeaderAt(s, k) {
      HeaderNeedsColon(s, k);
      if k + 11 < 24 {
        assert s[k + 11] == FACE_LEAD[k + 11];
      } else {
        assert s[k + 11] == HEADER[..11][k + 11 - 24];
      }
    }
  }

  lemma HeaderAt24(s: string)
    requires |s| >= 36 && s[24..36] == HEADER
    ensures HeaderAt(s, 24)
  {
    HeaderIsLowerCase();
  }

  lemma OneSpaceThenQuote(s: string)
    requires |s| >= 38 && s[36] == ' ' && s[37] == '\''
    ensures LeadingWs(s[36..]) == 1
  {
    assert s[36..][0] == ' ' && s[36..][1] == '\'';
  }

  lemma FamilyRun(s: string, family: string)
    requires PlainFamily(family) && |s| > 38 + |family|
    requires s[38..38 + |family|] == family && s[38 + |family|] == '\''
    ensures InFamilyClass(s[38]) && ClassRunEnd(s, 38) == 38 + |family|
  {
    var e := 38 + |family|;
    assert s[38] == family[0];
    forall k | 38 <= k < e ensures InFamilyClass(s[k]) {
      assert s[k] == family[k - 38];
    }
    ClassRunEndIs(s, 38, e);
  }

  /** The header at 24 is followed by one space, the opening quote, the
      family and the closing quote: group 1 is the family. */
  lemma CaptureAfterHeader(s: string, family: string)
    requires PlainFamily(family) && |s| > 38 + |family|
    requires s[24..36] == HEADER && s[36] == ' ' && s[37] == '\''
    requires s[38..38 + |family|] == family && s[38 + |family|] == '\''
    ensures HeaderAt(s, 24) && CaptureAt(s, 24) == Some(family)
  {
    HeaderAt24(s);
    OneSpaceThenQuote(s);
    FamilyRun(s, family);
  }

  /** Reading the family back out of any text that starts like a generated
      rule yields the family that was written. */
  lemma ExtractAfterFacePrefix(family: string, tail: string)
    requires PlainFamily(family)
    ensures ExtractFontFamily(FacePrefix() + family + "'" + tail) == Some(family)
  {
    var s := FacePrefix() + family + "'" + tail;
    FacePrefixLayout(family, tail);
    NoEarlierHeader(s);
    MatchFromSkips(s, 0, 24);
    CaptureAfterHeader(s, family);
    TrimmedIsFixed(family);
  }

  lemma FacePrefixLayout(family: string, tail: string)
    ensures var s := FacePrefix() + family + "'" + tail;
      |s| > 38 + |family|
      && s[..24] == FACE_LEAD && s[24..36] == HEADER && s[36] == ' ' && s[37] == '\''
      && s[38..38 + |family|] == family && s[38 + |family|] == '\''
  {
    FaceLeadShape();
  }

  lemma {:induction false} ClassRunEndIs(s: string, i: nat, e: nat)
    requires i <= e < |s|
    requires forall k | i <= k < e :: InFamilyClass(s[k])
    requires !InFamilyClass(s[e])
    ensures ClassRunEnd(s, i) == e
    decreases e - i
  {
    if i < e {
      ClassRunEndIs(s, i + 1, e);
    }
  }

  /** The `@font-face` rule of a font carries its family name back out. */
  lemma FontFaceFamilyRoundTrip(font: FontMetadata)
    requires PlainFamily(font.fontFamily)
    ensures ExtractFontFamily(GenerateFontFaceCSS(font)) == Some(font.fontFamily)
  {
    FaceLeadShape();
    ExtractAfterFacePrefix(font.fontFamily, FaceTail(font));
  }

  /** In a style sheet of rules joined by newlines, the first family found is
      the first font's. */
  lemma FontFacesFirstFamily(fonts: seq<FontMetadata>)
    requires fonts != [] && PlainFamily(fonts[0].fontFamily)
    ensures ExtractFontFamily(Join(FontFaceRules(fonts), "\n")) == Some(fonts[0].fontFamily)
  {
    var rules := FontFaceRules(fonts);
    var font := fonts[0];
    FaceLeadShape();
    var tail := if |rules| == 1 then FaceTail(font) else FaceTail(font) + "\n" + Join(rules[1..], "\n");
    assert Join(rules, "\n") == FacePrefix() + font.fontFamily + "'" + tail;
    ExtractAfterFacePrefix(font.fontFamily, tail);
  }

  /** The combined catalogue style sheet names the first catalogue font's
      family first. */
  lemma AllFontFacesFirstFamily()
    ensures ExtractFontFamily(GenerateAllFontFacesCSS()) == Some(AVAILABLE_FONTS[0].fontFamily)
  {
    assert PlainFamily(ROBOTO_MONO.fontFamily);
    FontFacesFirstFamily(AVAILABLE_FONTS);
  }

  // ---------------------------------------------------------------------
  // createFontStyleString
  // ---------------------------------------------------------------------

  /** `createFontStyleString(font)`: the CSS `font` shorthand
      `<weight> <style> 1em '<family>', monospace`. */
  function CreateFontStyleString(font: FontMetadata): string {
    font.weight + " " + font.style + " 1em '" + font.fontFamily + "', monospace"
  }

  /** The text between the first two `'` of `s`, if there are two. */
  function FirstQuoted(s: string): Option<string> {
    if s == [] then None
    else if s[0] == '\'' then UpToQuote(s[1..])
    else FirstQuoted(s[1..])
  }

  function UpToQuote(s: string): Option<string> {
    if s == [] then None
    else if s[0] == '\'' then Some([])
    else match UpToQuote(s[1..])
      case None => None
      case Some(t) => Some([s[0]] + t)
  }

  lemma {:induction false} UpToQuoteOf(w: string, rest: string)
    requires '\'' !in w
    ensures UpToQuote(w + "'" + rest) == Some(w)
  {
    if w != [] {
      assert (w + "'" + rest)[1..] == w[1..] + "'" + rest;
      UpToQuoteOf(w[1..], rest);
      assert [w[0]] + w[1..] == w;
    }
  }

  lemma {:induction false} FirstQuotedAfter(pre: string, w: string, rest: string)
    requires '\'' !in pre && '\'' !in w
    ensures FirstQuoted(pre + "'" + w + "'" + rest) == Some(w)
  {
    if pre == [] {
      assert (pre + "'" + w + "'" + rest)[1..] == w + "'" + rest;
      UpToQuoteOf(w, rest);
    } else {
      assert (pre + "'" + w + "'" + rest)[1..] == pre[1..] + "'" + w + "'" + rest;
      FirstQuotedAfter(pre[1..], w, rest);
    }
  }

  /** When weight, style and family carry no `'`, the quoted name in the
      shorthand is exactly the family. */
  lemma FontStyleStringQuotesFamily(font: FontMetadata)
    requires '\'' !in font.weight && '\'' !in font.style && '\'' !in font.fontFamily
    ensures FirstQuoted(CreateFontStyleString(font)) == Some(font.fontFamily)
  {
    var pre := font.weight + " " + font.style + " 1em ";
    assert CreateFontStyleString(font) == pre + "'" + font.fontFamily + "'" + ", monospace";
    FirstQuotedAfter(pre, font.fontFamily, ", monospace");
  }
}
