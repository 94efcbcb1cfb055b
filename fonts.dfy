/** The font and size catalogue and the CSS builders of lib/fonts.ts. */
module Fonts {
  import opened Wrappers
  import opened Strings

  datatype FontMetadata = FontMetadata(
    id: string, name: string, description: string, fileName: string,
    fontFamily: string, weight: string, style: string, filePath: string)

  datatype FontSize = FontSize(id: string, name: string, displayLabel: string, size: nat, description: string)

  const ROBOTO_MONO: FontMetadata :=
    FontMetadata("roboto-mono", "Roboto Mono", "", "RobotoMono-ExtraLightItalic.ttf",
                 "RobotoMono", "200", "italic", "/fonts/RobotoMono-ExtraLightItalic.ttf")
  const JETBRAINS_MONO: FontMetadata :=
    FontMetadata("jetbrains-mono", "JetBrains Mono", "", "JetBrainsMono-ExtraLightItalic.ttf",
                 "JetBrainsMono", "200", "italic", "/fonts/JetBrainsMono-ExtraLightItalic.ttf")
  const SOURCE_CODE_PRO: FontMetadata :=
    FontMetadata("source-code-pro", "Source Code Pro", "", "SourceCodePro-ExtraLightItalic.ttf",
                 "SourceCodePro", "200", "italic", "/fonts/SourceCodePro-ExtraLightItalic.ttf")

  const AVAILABLE_FONTS: seq<FontMetadata> := [ROBOTO_MONO, JETBRAINS_MONO, SOURCE_CODE_PRO]

  const DEFAULT_FONT_ID: string := "roboto-mono"

  const FONT_SIZES: seq<FontSize> := [
    FontSize("small", "소", "작은 글씨", 14, "세밀한 연습에 적합"),
    FontSize("medium", "중", "보통 글씨", 18, "일반적인 연습에 적합"),
    FontSize("large", "대", "큰 글씨", 24, "초보자 연습에 적합")
  ]

  /** `items.find(item => idOf(item) === id)`: the first entry with that
      id. */
  function Find<T>(items: seq<T>, idOf: T -> string, id: string): (r: Option<T>)
    ensures r.None? <==> forall k | 0 <= k < |items| :: idOf(items[k]) != id
    ensures r.Some? ==> exists k | 0 <= k < |items| ::
      items[k] == r.value && idOf(r.value) == id && forall j | 0 <= j < k :: idOf(items[j]) != id
  {
    if items == [] then None
    else if idOf(items[0]) == id then Some(items[0])
    else
      var r := Find(items[1..], idOf, id);
      assert r.Some? ==> exists k | 0 <= k < |items| ::
        items[k] == r.value && idOf(r.value) == id && forall j | 0 <= j < k :: idOf(items[j]) != id
      by {
        if r.Some? {
          var k :| 0 <= k < |items[1..]| && items[1..][k] == r.value && idOf(r.value) == id
                   && forall j | 0 <= j < k :: idOf(items[1..][j]) != id;
          assert items[k + 1] == r.value;
          assert forall j | 0 <= j < k + 1 :: idOf(items[j]) != id by {
            forall j | 0 <= j < k + 1 ensures idOf(items[j]) != id {
              if j > 0 { assert items[j] == items[1..][j - 1]; }
            }
          }
        }
      }
      assert r.None? ==> forall k | 0 <= k < |items| :: idOf(items[k]) != id by {
        if r.None? {
          forall k | 0 <= k < |items| ensures idOf(items[k]) != id {
            if k > 0 { assert items[k] == items[1..][k - 1]; }
          }
        }
      }
      r
  }

  function FontId(font: FontMetadata): string { font.id }

  function SizeId(size: FontSize): string { size.id }

  /** `getFontById`: the first catalogue font with the id, if any. */
  function GetFontById(id: string): (r: Option<FontMetadata>)
    ensures r.None? <==> forall k | 0 <= k < |AVAILABLE_FONTS| :: AVAILABLE_FONTS[k].id != id
    ensures r.Some? ==> r.value in AVAILABLE_FONTS && r.value.id == id
  {
    Find(AVAILABLE_FONTS, FontId, id)
  }

  /** `getFontSizeById`: the first catalogue size with the id, if any. */
  function GetFontSizeById(id: string): (r: Option<FontSize>)
    ensures r.None? <==> forall k | 0 <= k < |FONT_SIZES| :: FONT_SIZES[k].id != id
    ensures r.Some? ==> r.value in FONT_SIZES && r.value.id == id
  {
    Find(FONT_SIZES, SizeId, id)
  }

  /** The ids of the catalogue are pairwise distinct. */
  lemma CatalogueIdsDistinct()
    ensures forall i, j | 0 <= i < j < |AVAILABLE_FONTS| :: AVAILABLE_FONTS[i].id != AVAILABLE_FONTS[j].id
    ensures forall i, j | 0 <= i < j < |FONT_SIZES| :: FONT_SIZES[i].id != FONT_SIZES[j].id
  {
  }

  /** Looking up a listed id returns that entry, because ids are distinct. */
  lemma LookupListedIds()
    ensures forall k | 0 <= k < |AVAILABLE_FONTS| :: GetFontById(AVAILABLE_FONTS[k].id) == Some(AVAILABLE_FONTS[k])
    ensures forall k | 0 <= k < |FONT_SIZES| :: GetFontSizeById(FONT_SIZES[k].id) == Some(FONT_SIZES[k])
  {
    CatalogueIdsDistinct();
    forall k | 0 <= k < |AVAILABLE_FONTS|
      ensures GetFontById(AVAILABLE_FONTS[k].id) == Some(AVAILABLE_FONTS[k])
    {
      var r := GetFontById(AVAILABLE_FONTS[k].id);
      var i :| 0 <= i < |AVAILABLE_FONTS| && AVAILABLE_FONTS[i] == r.value
               && r.value.id == AVAILABLE_FONTS[k].id
               && forall j | 0 <= j < i :: AVAILABLE_FONTS[j].id != AVAILABLE_FONTS[k].id;
      assert i == k;
    }
    forall k | 0 <= k < |FONT_SIZES|
      ensures GetFontSizeById(FONT_SIZES[k].id) == Some(FONT_SIZES[k])
    {
      var r := GetFontSizeById(FONT_SIZES[k].id);
      var i :| 0 <= i < |FONT_SIZES| && FONT_SIZES[i] == r.value
               && r.value.id == FONT_SIZES[k].id
               && forall j | 0 <= j < i :: FONT_SIZES[j].id != FONT_SIZES[k].id;
      assert i == k;
    }
  }

  /** `getFontById(DEFAULT_FONT_ID) || AVAILABLE_FONTS[0]` */
  function GetDefaultFont(): (f: FontMetadata)
    ensures f in AVAILABLE_FONTS && f.id == DEFAULT_FONT_ID
  {
    var found := GetFontById(DEFAULT_FONT_ID);
    if found.Some? then found.value else ROBOTO_MONO
  }

  /** The React style object: empty when either lookup fails. */
  datatype FontStyle =
    | EmptyStyle
    | Style(fontFamily: string, fontSize: string, fontWeight: string, fontStyle: string, lineHeight: real)

  function GetFontStyle(fontId: string, sizeId: string): (r: FontStyle)
    ensures r.EmptyStyle? <==> GetFontById(fontId).None? || GetFontSizeById(sizeId).None?
    ensures r.Style? ==>
      var font := GetFontById(fontId).value;
      var size := GetFontSizeById(sizeId).value;
      && r.fontFamily == "'" + font.fontFamily + "', monospace"
      && r.fontSize == NatToString(size.size) + "px"
      && r.fontWeight == font.weight && r.fontStyle == font.style
      && r.lineHeight == 1.5
  {
    var font := GetFontById(fontId);
    var size := GetFontSizeById(sizeId);
    if font.None? || size.None? then EmptyStyle
    else Style("'" + font.value.fontFamily + "', monospace", NatToString(size.value.size) + "px",
               font.value.weight, font.value.style, 1.5)
  }

  /** The pixel size written into the style reads back as the size entry's
      `size`. */
  lemma FontStyleSizeReadsBack(fontId: string, sizeId: string)
    requires GetFontStyle(fontId, sizeId).Style?
    ensures var px := GetFontStyle(fontId, sizeId).fontSize;
      |px| > 2 && px[|px| - 2..] == "px"
      && (forall i | 0 <= i < |px| - 2 :: IsDigit(px[i]))
      && ParseNat(px[..|px| - 2]) == GetFontSizeById(sizeId).value.size
  {
    var n := GetFontSizeById(sizeId).value.size;
    var px := GetFontStyle(fontId, sizeId).fontSize;
    assert px[..|px| - 2] == NatToString(n);
    NatToStringRoundTrip(n);
  }

  /** The `@font-face` rule for one font: the opening up to the quoted
      family, the family, and the rest of the rule. */
  function GenerateFontFaceCSS(font: FontMetadata): string {
    FACE_OPEN + font.fontFamily + "'" + FaceTail(font)
  }

  const FACE_OPEN: string := "\n    @font-face {\n      font-family: '"

  function FaceTail(font: FontMetadata): string {
    ";\n      src: url('" + font.filePath
    + "') format('truetype');\n      font-weight: " + font.weight
    + ";\n      font-style: " + font.style
    + ";\n      font-display: swap;\n    }\n  "
  }

  function FontFaceRules(fonts: seq<FontMetadata>): (r: seq<string>)
    ensures |r| == |fonts|
    ensures forall k | 0 <= k < |fonts| :: r[k] == GenerateFontFaceCSS(fonts[k])
  {
    if fonts == [] then [] else [GenerateFontFaceCSS(fonts[0])] + FontFaceRules(fonts[1..])
  }

  /** One rule per catalogue font, in catalogue order, separated by newlines. */
  function GenerateAllFontFacesCSS(): string {
    Join(FontFaceRules(AVAILABLE_FONTS), "\n")
  }
}
