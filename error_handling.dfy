/** Client-side error classification and recovery advice of
    lib/client-error-handling.ts: decision tables over the error kinds of
    the multi-page generator and a memory-based page-limit adjuster. */
module ClientErrors {
  import opened Wrappers
  import opened Strings
  import opened Constants

  /** `MultiPagePDFError` */
  datatype ErrorKind =
    | ContentTooLarge
    | PageLimitExceeded
    | TextDistributionFailed
    | MemoryLimitExceeded
    | GenerationTimeout
    | InvalidPageLimit

  /** `MultiPagePDFErrorInfo`; `details` is whatever record the caller
      attaches, carried through untouched. */
  datatype ErrorInfo<D> = ErrorInfo(kind: ErrorKind, message: string, details: Option<D>, suggestedAction: string)

  /** `createErrorInfo(error, details)`: the user-facing message and action
      for an error kind. */
  function CreateErrorInfo<D>(error: ErrorKind, details: Option<D>): (info: ErrorInfo<D>)
    ensures info.kind == error && info.details == details
    ensures info.message != [] && info.suggestedAction != []
  {
    match error
    case ContentTooLarge =>
      ErrorInfo(error, "선택한 텍스트 내용이 너무 큽니다.", details,
                "더 짧은 텍스트를 선택하거나 페이지 제한을 늘려보세요.")
    case PageLimitExceeded =>
      ErrorInfo(error, "페이지 제한을 초과했습니다.", details,
                "페이지 제한을 늘리거나 더 짧은 텍스트를 선택해주세요.")
    case TextDistributionFailed =>
      ErrorInfo(error, "텍스트 분배 중 오류가 발생했습니다.", details,
                "다른 텍스트를 선택하거나 페이지를 새로고침해보세요.")
    case MemoryLimitExceeded =>
      ErrorInfo(error, "메모리 한계를 초과했습니다.", details,
                "페이지 수를 줄이거나 더 짧은 텍스트를 선택해주세요.")
    case GenerationTimeout =>
      ErrorInfo(error, "PDF 생성 시간이 초과되었습니다.", details,
                "페이지 수를 줄이거나 잠시 후 다시 시도해주세요.")
    case InvalidPageLimit =>
      ErrorInfo(error, "유효하지 않은 페이지 제한입니다.", details,
                "1-50 사이의 페이지 수를 선택해주세요.")
  }

  /** The message alone tells the error kind: no two kinds share one. */
  lemma MessageIdentifiesKind<D>(a: ErrorKind, b: ErrorKind, da: Option<D>, db: Option<D>)
    ensures CreateErrorInfo(a, da).message == CreateErrorInfo(b, db).message ==> a == b
  {
  }

  /** `sub` starts with `pre`, so every occurrence of `sub` is one of `pre`. */
  lemma ContainsPrefix(s: string, sub: string, pre: string)
    requires |pre| <= |sub| && sub[..|pre|] == pre
    ensures Contains(s, sub) ==> Contains(s, pre)
  {
    if Contains(s, sub) {
      var i :| 0 <= i <= |s| - |sub| && OccursAt(s, sub, i);
      assert s[i..i + |pre|] == s[i..i + |sub|][..|pre|];
      assert OccursAt(s, pre, i);
    }
  }

  /** The keyword tests of `classifyError`, in the order it applies them,
      on the lower-cased message. */
  predicate MentionsMemory(m: string) { Contains(m, "memory") || Contains(m, "heap") }
  predicate MentionsTime(m: string) { Contains(m, "timeout") || Contains(m, "time") }
  predicate MentionsPageLimit(m: string) { Contains(m, "page limit") || Contains(m, "too many pages") }
  predicate MentionsDistribution(m: string) { Contains(m, "text distribution") || Contains(m, "split") }
  predicate MentionsLargeContent(m: string) { Contains(m, "content") && Contains(m, "large") }
  predicate MentionsInvalidPage(m: string) { Contains(m, "invalid") && Contains(m, "page") }

  /** `classifyError(error)`: ordered keyword tests on the lower-cased
      message, memory first, text distribution as the default. Each kind is
      stated as an if-and-only-if: its keywords occur and no earlier test's
      keywords do. Because "timeout" contains "time", the timeout kind is
      exactly the messages that mention "time" and neither "memory" nor
      "heap"; and a message naming a "page limit" is taken before the
      invalid-limit test can see it. */
  function ClassifyError(message: string): (e: ErrorKind)
    ensures var m := ToLower(message);
      && (e == MemoryLimitExceeded <==> MentionsMemory(m))
      && (e == GenerationTimeout <==> !MentionsMemory(m) && Contains(m, "time"))
      && (e == PageLimitExceeded <==>
            !MentionsMemory(m) && !Contains(m, "time") && MentionsPageLimit(m))
      && (e == ContentTooLarge <==>
            !MentionsMemory(m) && !Contains(m, "time") && !MentionsPageLimit(m)
            && !MentionsDistribution(m) && MentionsLargeContent(m))
      && (e == InvalidPageLimit <==>
            !MentionsMemory(m) && !Contains(m, "time") && !MentionsPageLimit(m)
            && !MentionsDistribution(m) && !MentionsLargeContent(m) && MentionsInvalidPage(m))
      // the default: the distribution keywords, or none of the keywords at all
      && (e == TextDistributionFailed <==>
            !MentionsMemory(m) && !Contains(m, "time") && !MentionsPageLimit(m)
            && (MentionsDistribution(m) || (!MentionsLargeContent(m) && !MentionsInvalidPage(m))))
  {
    var m := ToLower(message);
    ContainsPrefix(m, "timeout", "time");
    if MentionsMemory(m) then MemoryLimitExceeded
    else if MentionsTime(m) then GenerationTimeout
    else if MentionsPageLimit(m) then PageLimitExceeded
    else if MentionsDistribution(m) then TextDistributionFailed
    else if MentionsLargeContent(m) then ContentTooLarge
    else if MentionsInvalidPage(m) then InvalidPageLimit
    else TextDistributionFailed
  }

  /** The classification looks only at the lower-cased message: a message
      and its lower-cased form fall in the same kind. */
  lemma ClassifyIgnoresCase(message: string)
    ensures ClassifyError(ToLower(message)) == ClassifyError(message)
  {
    LowerIdempotent(message);
  }

  /** The recovery flags of `suggestRecoveryStrategy`. */
  datatype RecoveryStrategy = RecoveryStrategy(
    canRetry: bool,
    shouldReducePageLimit: bool,
    shouldChangeText: bool,
    fallbackToSinglePage: bool)

  /** `suggestRecoveryStrategy(errorInfo)`: retrying is always offered, and
      every kind suggests a smaller page limit or another text; only the
      page-limit kinds withhold the single-page fallback. */
  function SuggestRecoveryStrategy<D>(info: ErrorInfo<D>): (s: RecoveryStrategy)
    ensures s.canRetry
    ensures s.shouldReducePageLimit || s.shouldChangeText
    ensures s.shouldReducePageLimit <==>
      info.kind in {MemoryLimitExceeded, PageLimitExceeded, GenerationTimeout, InvalidPageLimit}
    ensures s.shouldChangeText <==> info.kind in {PageLimitExceeded, ContentTooLarge, TextDistributionFailed}
    ensures !s.fallbackToSinglePage <==> info.kind in {PageLimitExceeded, InvalidPageLimit}
  {
    match info.kind
    case MemoryLimitExceeded => RecoveryStrategy(true, true, false, true)
    case PageLimitExceeded => RecoveryStrategy(true, true, true, false)
    case ContentTooLarge => RecoveryStrategy(true, false, true, true)
    case GenerationTimeout => RecoveryStrategy(true, true, false, true)
    case TextDistributionFailed => RecoveryStrategy(true, false, true, true)
    case InvalidPageLimit => RecoveryStrategy(true, true, false, false)
  }

  /** From a raw message to advice: a message that mentions memory or the
      heap leads to a smaller page limit with the single-page fallback, and
      one that mentions none of the keywords leads to another text. */
  lemma AdviceForMessage<D>(message: string, details: Option<D>)
    ensures var m := ToLower(message);
      var s := SuggestRecoveryStrategy(CreateErrorInfo(ClassifyError(message), details));
      && (Contains(m, "memory") || Contains(m, "heap") ==> s.shouldReducePageLimit && s.fallbackToSinglePage)
      && (Contains(m, "time") ==> s.shouldReducePageLimit)
      && (!MentionsMemory(m) && !MentionsTime(m) && !MentionsPageLimit(m) && !MentionsDistribution(m)
            && !MentionsLargeContent(m) && !MentionsInvalidPage(m) ==>
            ClassifyError(message) == TextDistributionFailed && s.shouldChangeText && !s.shouldReducePageLimit)
  {
  }

  /** Memory pressure of `checkMemoryUsage`. */
  datatype Pressure = Low | Medium | High

  function PressureRank(p: Pressure): nat {
    match p
    case Low => 0
    case Medium => 1
    case High => 2
  }

  /** The part of `checkMemoryUsage` that decides: whether heap figures are
      available and the pressure they mean. */
  datatype MemoryCheck = MemoryCheck(available: bool, pressure: Pressure)

  /** `checkMemoryUsage()` with the ratio `used / limit` of the browser's
      heap figures as input, `None` where the browser has none. */
  function CheckMemoryUsage(usageRatio: Option<real>): (r: MemoryCheck)
    ensures r.available <==> usageRatio.Some?
    ensures usageRatio.None? ==> r.pressure == Low
    ensures usageRatio.Some? ==>
      && (r.pressure == High <==> usageRatio.value > 0.8)
      && (r.pressure == Low <==> usageRatio.value <= 0.6)
  {
    match usageRatio
    case None => MemoryCheck(false, Low)
    case Some(ratio) =>
      var pressure := if ratio > 0.8 then High else if ratio > 0.6 then Medium else Low;
      MemoryCheck(true, pressure)
  }

  /** A fuller heap never reads as less pressure. */
  lemma PressureMonotone(a: real, b: real)
    requires a <= b
    ensures PressureRank(CheckMemoryUsage(Some(a)).pressure) <= PressureRank(CheckMemoryUsage(Some(b)).pressure)
  {
  }

  /** `adjustPageLimitForMemory(currentLimit, memoryPressure)`: the smaller
      of the requested limit and the cap of the pressure (5 pages under high
      pressure, 15 under medium, no cap under low). */
  function AdjustPageLimitForMemory(currentLimit: int, pressure: Pressure): (r: int)
    ensures r <= currentLimit
    ensures pressure == Low ==> r == currentLimit
    ensures pressure == Medium ==> r <= 15 && (r == currentLimit || r == 15)
    ensures pressure == High ==> r <= 5 && (r == currentLimit || r == 5)
  {
    match pressure
    case High => Min(currentLimit, 5)
    case Medium => Min(currentLimit, 15)
    case Low => currentLimit
  }

  /** The adjusted limit grows with the requested one and shrinks as the
      pressure rises. */
  lemma AdjustMonotone(a: int, b: int, p: Pressure, q: Pressure)
    requires a <= b && PressureRank(p) <= PressureRank(q)
    ensures AdjustPageLimitForMemory(a, p) <= AdjustPageLimitForMemory(b, p)
    ensures AdjustPageLimitForMemory(a, q) <= AdjustPageLimitForMemory(a, p)
  {
  }
}
