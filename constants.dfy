/** Layout constants and per-size presets (lib/constants.ts), plus the
    configuration values that the library imports but that are supplied from
    outside the model. Lengths are PDF points (1/72 inch). */
module Constants {
  import opened Strings

  /** `Math.min` */
  function Min(a: int, b: int): int {
    if a <= b then a else b
  }

  /** `Math.max` */
  function Max(a: int, b: int): int {
    if a >= b then a else b
  }

  /** Millimetres to points. */
  function MmToPt(mm: real): real {
    mm * (1.0 / 25.4) * 72.0
  }

  const LEFT_MARGIN: real := MmToPt(25.0)
  const RIGHT_MARGIN: real := MmToPt(25.0)
  const TOP_MARGIN: real := MmToPt(20.0)
  const BOTTOM_MARGIN: real := MmToPt(20.0)

  /** Indent of example text inside the x-height box. */
  const TEXT_LEFT_MARGIN: real := 5.0

  /** Dash pattern of the x-height middle line. */
  const MID_DASH: seq<real> := [2.0, 3.0]

  /** A count of at least one. */
  type Positive = n: nat | n > 0 witness 1

  /** Per-size sheet layout: PDF font size, guideline group height and number
      of guideline slots per page. */
  datatype SizeConfig = SizeConfig(baseFontSize: nat, lineSpacing: real, totalLines: Positive)

  const SMALL_CONFIG: SizeConfig := SizeConfig(12, MmToPt(4.5), 26)
  const MEDIUM_CONFIG: SizeConfig := SizeConfig(16, MmToPt(5.5), 22)
  const LARGE_CONFIG: SizeConfig := SizeConfig(20, MmToPt(6.5), 18)

  /** `FONT_SIZE_MAPPINGS[sizeId] || FONT_SIZE_MAPPINGS.medium`: an unknown id
      falls back to the medium preset. Every preset has at least one slot and
      a positive group height. */
  function SizeConfigFor(sizeId: string): (c: SizeConfig)
    ensures c.totalLines > 0 && c.lineSpacing > 0.0
    ensures c in {SMALL_CONFIG, MEDIUM_CONFIG, LARGE_CONFIG}
    ensures sizeId != "small" && sizeId != "large" ==> c == MEDIUM_CONFIG
  {
    if sizeId == "small" then SMALL_CONFIG
    else if sizeId == "large" then LARGE_CONFIG
    else MEDIUM_CONFIG
  }

  /** A larger preset has taller guideline groups and fewer slots per page. */
  lemma PresetsOrdered()
    ensures SizeConfigFor("small").lineSpacing < SizeConfigFor("medium").lineSpacing
            < SizeConfigFor("large").lineSpacing
    ensures SizeConfigFor("small").totalLines > SizeConfigFor("medium").totalLines
            > SizeConfigFor("large").totalLines
  {
  }

  /** The page-limit settings (`MULTI_PAGE_CONFIG`), supplied from outside. */
  datatype PageLimitConfig = PageLimitConfig(minPages: int, maxPages: int)
  {
    /** At least one page is always allowed. */
    predicate Valid() {
      1 <= minPages <= maxPages
    }
  }

  /** The text shown when drawing a line of example text fails. */
  const PLACEHOLDER_TEXT: string := "Handwriting practice line"

  /** The eight sentences of the default third practice block. */
  const PRACTICE_SENTENCES: seq<string> := [
    "The quick brown fox jumps over the lazy dog.",
    "Go placidly amid the noise and haste, and remember what peace there may be in silence.",
    "As far as possible, without surrender, be on good terms with all persons.",
    "Speak your truth quietly and clearly; and listen to others, even to the dull and the ignorant; they too have their story.",
    "Pack my box with five dozen liquor jugs.",
    "Sphinx of black quartz, judge my vow.",
    "You are a child of the universe, no less than the trees and the stars; you have a right to be here.",
    "And whether or not it is clear to you, no doubt the universe is unfolding as it should."
  ]

  /** The default practice blocks: the two alphabets and the sentences joined
      with one space. */
  const PRACTICE_TEXTS: seq<string> := [
    "ABCDEFGHIJKLMNOPQRSTUVWXYZ",
    "abcdefghijklmnopqrstuvwxyz",
    Join(PRACTICE_SENTENCES, " ")
  ]
}
