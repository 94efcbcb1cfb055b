/** Memory tiers, memory estimates, recommendations and the automatic page
    limit of lib/performance-utils.ts. Heap figures are inputs: the browser
    may or may not report them. Byte counts are integers. */
module Performance {
  import opened Wrappers
  import opened Constants

  const MIB: int := 1024 * 1024

  /** `MEMORY_THRESHOLDS` (the 50 MiB `LOW` entry is declared but never
      consulted). */
  const MEDIUM_THRESHOLD: int := 100 * MIB
  const HIGH_THRESHOLD: int := 200 * MIB
  const CRITICAL_THRESHOLD: int := 300 * MIB

  datatype Pressure = Low | Medium | High | Critical

  function PressureRank(p: Pressure): nat {
    match p
    case Low => 0
    case Medium => 1
    case High => 2
    case Critical => 3
  }

  /** The tier of a byte count against the thresholds, each crossed only
      when strictly exceeded. */
  function Tier(bytes: int): (p: Pressure)
    ensures p == Critical <==> bytes > CRITICAL_THRESHOLD
    ensures p == High <==> HIGH_THRESHOLD < bytes <= CRITICAL_THRESHOLD
    ensures p == Medium <==> MEDIUM_THRESHOLD < bytes <= HIGH_THRESHOLD
    ensures p == Low <==> bytes <= MEDIUM_THRESHOLD
  {
    if bytes > CRITICAL_THRESHOLD then Critical
    else if bytes > HIGH_THRESHOLD then High
    else if bytes > MEDIUM_THRESHOLD then Medium
    else Low
  }

  /** More bytes never mean a lower tier. */
  lemma TierMonotone(a: int, b: int)
    requires a <= b
    ensures PressureRank(Tier(a)) <= PressureRank(Tier(b))
  {
  }

  /** The browser's `performance.memory` figures. */
  datatype HeapFigures = HeapFigures(used: nat, total: nat, limit: nat)

  /** The result of `getCurrentMemoryUsage`. */
  datatype MemoryUsage = MemoryUsage(available: bool, used: nat, total: nat, limit: nat, pressure: Pressure)

  /** `getCurrentMemoryUsage()`: zeros and low pressure without figures,
      otherwise the figures and the tier of the used heap. */
  function GetCurrentMemoryUsage(memory: Option<HeapFigures>): (u: MemoryUsage)
    ensures u.available <==> memory.Some?
    ensures memory.None? ==> u.used == 0 && u.total == 0 && u.limit == 0 && u.pressure == Low
    ensures memory.Some? ==>
      && u.used == memory.value.used && u.total == memory.value.total && u.limit == memory.value.limit
      && u.pressure == Tier(memory.value.used)
  {
    match memory
    case None => MemoryUsage(false, 0, 0, 0, Low)
    case Some(m) => MemoryUsage(true, m.used, m.total, m.limit, Tier(m.used))
  }

  const ADVICE_CRITICAL: string := "매우 위험: 페이지 수를 크게 줄이세요 (5페이지 이하 권장)"
  const ADVICE_HIGH: string := "위험: 페이지 수를 줄이세요 (15페이지 이하 권장)"
  const ADVICE_MEDIUM: string := "주의: 메모리 사용량이 높을 수 있습니다"
  const ADVICE_LOW: string := "안전: 메모리 사용량이 적절합니다"

  /** The advice text for a tier. */
  function Advice(p: Pressure): string {
    match p
    case Critical => ADVICE_CRITICAL
    case High => ADVICE_HIGH
    case Medium => ADVICE_MEDIUM
    case Low => ADVICE_LOW
  }

  datatype MemoryEstimate = MemoryEstimate(estimatedBytes: int, isSafe: bool, recommendation: string)

  const BASE_MEMORY_PER_PAGE: int := 1024 * 1024
  const TEXT_MEMORY_FACTOR: int := 10

  /** `estimateMemoryUsage(pageCount, textLength)`: one MiB per page and ten
      bytes per character; safe strictly below the high threshold; the advice
      follows the same tiers as the measured heap. */
  function EstimateMemoryUsage(pageCount: int, textLength: int): (e: MemoryEstimate)
    ensures e.estimatedBytes == pageCount * MIB + textLength * 10
    ensures e.isSafe <==> e.estimatedBytes < HIGH_THRESHOLD
    ensures e.recommendation == Advice(Tier(e.estimatedBytes))
  {
    var estimatedBytes := pageCount * BASE_MEMORY_PER_PAGE + textLength * TEXT_MEMORY_FACTOR;
    var isSafe := estimatedBytes < HIGH_THRESHOLD;
    var recommendation :=
      if estimatedBytes > CRITICAL_THRESHOLD then ADVICE_CRITICAL
      else if estimatedBytes > HIGH_THRESHOLD then ADVICE_HIGH
      else if estimatedBytes > MEDIUM_THRESHOLD then ADVICE_MEDIUM
      else ADVICE_LOW;
    MemoryEstimate(estimatedBytes, isSafe, recommendation)
  }

  /** More pages or more text never make an unsafe estimate safe, and a safe
      estimate advises at most the medium tier. An estimate of exactly the
      high threshold is unsafe yet gets the medium advice. */
  lemma EstimateTiers(pages: int, text: int, pages': int, text': int)
    requires pages <= pages' && text <= text'
    ensures EstimateMemoryUsage(pages', text').isSafe ==> EstimateMemoryUsage(pages, text).isSafe
    ensures EstimateMemoryUsage(pages, text).isSafe ==>
      PressureRank(Tier(EstimateMemoryUsage(pages, text).estimatedBytes)) <= 1
    ensures EstimateMemoryUsage(200, 0).estimatedBytes == HIGH_THRESHOLD
    ensures !EstimateMemoryUsage(200, 0).isSafe && EstimateMemoryUsage(200, 0).recommendation == ADVICE_MEDIUM
  {
    assert pages * MIB <= pages' * MIB;
  }

  /** The `recommendations` of `collectPerformanceMetrics`. */
  datatype Recommendations = Recommendations(
    maxRecommendedPages: int,
    shouldUseStreaming: bool,
    shouldReduceQuality: bool,
    shouldShowWarning: bool)

  /** The recommendation switch of `collectPerformanceMetrics` on the
      pressure of the measured heap; `maxPages` is the configured page
      maximum. */
  function Recommend(pressure: Pressure, pageCount: int, maxPages: int): (r: Recommendations)
    ensures r.shouldReduceQuality <==> pressure == Critical
    ensures r.shouldShowWarning <==> PressureRank(pressure) >= 2
    ensures r.shouldUseStreaming <==> PressureRank(pressure) >= 2 || (pressure == Medium && pageCount > 20)
    ensures pressure == Low ==> r.maxRecommendedPages == maxPages
    ensures pressure == Critical ==> r.maxRecommendedPages == 3
    ensures pressure == High ==> r.maxRecommendedPages == 10
    ensures pressure == Medium ==> r.maxRecommendedPages == 25
  {
    match pressure
    case Critical => Recommendations(3, true, true, true)
    case High => Recommendations(10, true, false, true)
    case Medium => Recommendations(25, pageCount > 20, false, false)
    case Low => Recommendations(maxPages, false, false, false)
  }

  /** The advice only tightens as the pressure rises (for a page maximum of
      at least 25): fewer pages, and each flag, once raised, stays raised. */
  lemma RecommendTightens(p: Pressure, q: Pressure, pageCount: int, maxPages: int)
    requires PressureRank(p) <= PressureRank(q) && maxPages >= 25
    ensures Recommend(q, pageCount, maxPages).maxRecommendedPages <= Recommend(p, pageCount, maxPages).maxRecommendedPages
    ensures Recommend(p, pageCount, maxPages).shouldUseStreaming ==> Recommend(q, pageCount, maxPages).shouldUseStreaming
    ensures Recommend(p, pageCount, maxPages).shouldReduceQuality ==> Recommend(q, pageCount, maxPages).shouldReduceQuality
    ensures Recommend(p, pageCount, maxPages).shouldShowWarning ==> Recommend(q, pageCount, maxPages).shouldShowWarning
  {
  }

  const REASON_CRITICAL: string := "메모리 부족으로 인한 조정"
  const REASON_HIGH: string := "높은 메모리 사용량으로 인한 조정"
  const REASON_MEDIUM: string := "메모리 최적화를 위한 조정"
  const REASON_ESTIMATE_CRITICAL: string := "예상 메모리 사용량이 너무 높음"
  const REASON_ESTIMATE_HIGH: string := "예상 메모리 사용량 최적화"

  /** Whether the measured pressure of `autoAdjustPageLimit` changes the
      request: 3 pages under critical pressure, 10 under high, 25 under
      medium, only when the request exceeds that cap. */
  predicate MemoryCapsRequest(requestedPages: int, memory: MemoryUsage) {
    && memory.available
    && match memory.pressure
       case Critical => requestedPages > 3
       case High => requestedPages > 10
       case Medium => requestedPages > 25
       case Low => false
  }

  /** `autoAdjustPageLimit(requestedPages, textLength)`, with the measured
      heap as input. First the measured pressure may cap the limit (3, 10 or
      25 pages); only when that changed nothing does the estimate for the
      requested pages cap it (5 pages above the critical threshold, 15 above
      the high one). The limit never grows, and an unflagged result is the
      request itself. The reason is the one of the step that changed the
      limit; an unflagged result keeps the text the critical or high branch
      wrote, and otherwise none. */
  method AutoAdjustPageLimit(requestedPages: int, textLength: int, memory: MemoryUsage)
    returns (adjustedPages: int, reason: string, wasAdjusted: bool)
    ensures adjustedPages <= requestedPages
    ensures !wasAdjusted ==> adjustedPages == requestedPages
    ensures MemoryCapsRequest(requestedPages, memory) ==>
      && wasAdjusted
      && (memory.pressure == Critical ==> adjustedPages == 3 && reason == REASON_CRITICAL)
      && (memory.pressure == High ==> adjustedPages == 10 && reason == REASON_HIGH)
      && (memory.pressure == Medium ==> adjustedPages == 25 && reason == REASON_MEDIUM)
    ensures !MemoryCapsRequest(requestedPages, memory) ==>
      var est := EstimateMemoryUsage(requestedPages, textLength).estimatedBytes;
      && (est > CRITICAL_THRESHOLD ==>
            adjustedPages == Min(requestedPages, 5) && wasAdjusted && reason == REASON_ESTIMATE_CRITICAL)
      && (HIGH_THRESHOLD < est <= CRITICAL_THRESHOLD ==>
            adjustedPages == Min(requestedPages, 15) && wasAdjusted && reason == REASON_ESTIMATE_HIGH)
      && (est <= HIGH_THRESHOLD ==> !wasAdjusted && adjustedPages == requestedPages)
    ensures !wasAdjusted ==>
      reason == (if memory.available && memory.pressure == Critical then REASON_CRITICAL
                 else if memory.available && memory.pressure == High then REASON_HIGH
                 else "")
  {
    var memoryEstimate := EstimateMemoryUsage(requestedPages, textLength);
    adjustedPages := requestedPages;
    reason := "";
    wasAdjusted := false;

    if memory.available {
      match memory.pressure {
        case Critical =>
          adjustedPages := Min(adjustedPages, 3);
          reason := REASON_CRITICAL;
          wasAdjusted := adjustedPages != requestedPages;
        case High =>
          adjustedPages := Min(adjustedPages, 10);
          reason := REASON_HIGH;
          wasAdjusted := adjustedPages != requestedPages;
        case Medium =>
          if requestedPages > 25 {
            adjustedPages := 25;
            reason := REASON_MEDIUM;
            wasAdjusted := true;
          }
        case Low =>
      }
    }

    if !memoryEstimate.isSafe && !wasAdjusted {
      if memoryEstimate.estimatedBytes > CRITICAL_THRESHOLD {
        adjustedPages := Min(adjustedPages, 5);
        reason := REASON_ESTIMATE_CRITICAL;
        wasAdjusted := true;
      } else if memoryEstimate.estimatedBytes > HIGH_THRESHOLD {
        adjustedPages := Min(adjustedPages, 15);
        reason := REASON_ESTIMATE_HIGH;
        wasAdjusted := true;
      }
    }
  }
}
