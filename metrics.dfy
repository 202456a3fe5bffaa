/**
 * The server's metrics registry: per-category analysis and error counters,
 * per-category windows of recent durations, business counters with their
 * derived rates, cache hit/miss counters, and system gauges.  Every
 * recording method updates the fields in place; `now` stands for the clock
 * reading stored in LastUpdate.  Durations are integer nanoseconds.
 */
module Monitoring {
  import opened Common

  const ConfirmedAIVerdict: string := "AI Generated (Confirmed)"
  const VeryLikelyAIVerdict: string := "Very Likely AI Generated"
  const LikelyAIVerdict: string := "Likely AI Generated"
  const PossiblyAIVerdict: string := "Possibly AI Generated"

  /** The verdict strings that RecordVerdict counts as an AI detection. */
  const AIVerdicts: set<string> := {ConfirmedAIVerdict, VeryLikelyAIVerdict, LikelyAIVerdict, PossiblyAIVerdict}

  const WindowSize: nat := 100

  /** The newest `n` elements of `s`, oldest first. */
  function LastN<T(==)>(s: seq<T>, n: nat): (r: seq<T>)
    ensures |r| <= n && |r| <= |s|
    ensures HasSuffixSeq(s, r)
    ensures |s| <= n ==> r == s
  {
    if |s| <= n then s else s[|s| - n..]
  }

  predicate HasSuffixSeq<T(==)>(s: seq<T>, r: seq<T>)
  {
    |r| <= |s| && s[|s| - |r|..] == r
  }

  function SeqSum(s: seq<int>): int
  {
    if s == [] then 0 else SeqSum(s[..|s| - 1]) + s[|s| - 1]
  }

  /** Go's integer division, which truncates toward zero. */
  function QuoTowardZero(a: int, b: int): (q: int)
    requires b > 0
    ensures a >= 0 ==> q == a / b
    ensures a < 0 ==> q == -((-a) / b)
  {
    if a >= 0 then a / b else -((-a) / b)
  }

  function Get0(m: map<string, int>, k: string): int
  {
    if k in m then m[k] else 0
  }

  function Window(m: map<string, seq<int>>, k: string): seq<int>
  {
    if k in m then m[k] else []
  }

  /** The sum of all counters of a map, independent of iteration order. */
  ghost function MapTotal(m: map<string, int>): int
  {
    SumInt(m.Keys, k => Get0(m, k))
  }

  predicate AllNonNegative(m: map<string, int>)
  {
    forall k :: k in m ==> m[k] >= 0
  }

  predicate WindowsBounded(m: map<string, seq<int>>)
  {
    forall k :: k in m ==> |m[k]| <= WindowSize
  }

  predicate CountersNonNegative(total: int, ai: int, earlyExit: int, hits: int, misses: int)
  {
    total >= 0 && ai >= 0 && earlyExit >= 0 && hits >= 0 && misses >= 0
  }

  function Rate(part: int, total: int): real
    requires total > 0
  {
    part as real / total as real
  }

  datatype BusinessMetrics = BusinessMetrics(
    aiDetectionRate: real, cacheHitRate: real, earlyExitRate: real,
    totalAnalyses: int, aiDetectedCount: int, earlyExitCount: int)

  datatype OverallMetrics = OverallMetrics(totalAnalyses: int, totalErrors: int, overallErrorRate: real)

  datatype CategoryMetrics = CategoryMetrics(averageDurationMs: int, errorRate: real, totalCount: int, errorCount: int)

  datatype SystemMetrics = SystemMetrics(
    activeConnections: int, cacheHits: int, cacheMisses: int, memoryUsage: real, cpuUsage: real)

  datatype Summary = Summary(
    business: BusinessMetrics,
    cacheHits: int, cacheMisses: int, cacheHitRate: real,
    analysisCount: map<string, int>, errorCount: map<string, int>,
    activeConnections: int, lastUpdateUnix: int)

  class Metrics {
    var analysisCount: map<string, int>
    var analysisDuration: map<string, seq<int>>
    var errorCount: map<string, int>

    var totalAnalyses: int
    var aiDetectedCount: int
    var earlyExitCount: int
    var aiDetectionRate: real
    var earlyExitRate: real
    var cacheHitRate: real

    var memoryUsage: seq<real>
    var cpuUsage: seq<real>
    var activeConnections: int

    var cacheHits: int
    var cacheMisses: int

    var lastUpdate: int

    /** Counters never go negative and every window holds at most 100 samples. */
    ghost predicate Valid()
      reads this
    {
      AllNonNegative(analysisCount) && AllNonNegative(errorCount) && WindowsBounded(analysisDuration)
      && |memoryUsage| <= WindowSize && |cpuUsage| <= WindowSize
      && CountersNonNegative(totalAnalyses, aiDetectedCount, earlyExitCount, cacheHits, cacheMisses)
    }

    /** The cache hit rate is the hit share of all cache operations, 0 before the first. */
    ghost predicate HitRateMatches()
      reads this`cacheHits, this`cacheMisses, this`cacheHitRate
    {
      if cacheHits + cacheMisses > 0 then cacheHitRate == Rate(cacheHits, cacheHits + cacheMisses)
      else cacheHitRate == 0.0
    }

    /** Between two states only the cache counters and the hit rate moved:
        every other field is as it was. */
    twostate predicate OnlyCacheCountsChanged()
      reads this
    {
      && analysisCount == old(analysisCount) && analysisDuration == old(analysisDuration)
      && errorCount == old(errorCount)
      && totalAnalyses == old(totalAnalyses) && aiDetectedCount == old(aiDetectedCount)
      && earlyExitCount == old(earlyExitCount)
      && aiDetectionRate == old(aiDetectionRate) && earlyExitRate == old(earlyExitRate)
      && memoryUsage == old(memoryUsage) && cpuUsage == old(cpuUsage)
      && activeConnections == old(activeConnections) && lastUpdate == old(lastUpdate)
    }

    /** The invariant that holds while the business counters are only fed by
        RecordVerdict: both counts are bounded by the total, so both rates
        are fractions in [0, 1]. */
    ghost predicate VerdictCountsConsistent()
      reads this
    {
      0 <= aiDetectedCount <= totalAnalyses && 0 <= earlyExitCount <= totalAnalyses
      && 0.0 <= aiDetectionRate <= 1.0 && 0.0 <= earlyExitRate <= 1.0
    }

    /** The freshly constructed (and freshly reset) state: every map and
        window empty, every counter, rate and gauge zero. */
    ghost predicate IsZero()
      reads this
    {
      |analysisCount| == 0 && |analysisDuration| == 0 && |errorCount| == 0
      && totalAnalyses == 0 && aiDetectedCount == 0 && earlyExitCount == 0
      && aiDetectionRate == 0.0 && earlyExitRate == 0.0 && cacheHitRate == 0.0
      && |memoryUsage| == 0 && |cpuUsage| == 0 && activeConnections == 0
      && cacheHits == 0 && cacheMisses == 0
    }

    constructor (now: int)
      ensures Valid() && HitRateMatches() && VerdictCountsConsistent() && IsZero() && lastUpdate == now
    {
      analysisCount, analysisDuration, errorCount := map[], map[], map[];
      totalAnalyses, aiDetectedCount, earlyExitCount := 0, 0, 0;
      aiDetectionRate, earlyExitRate, cacheHitRate := 0.0, 0.0, 0.0;
      memoryUsage, cpuUsage, activeConnections := [], [], 0;
      cacheHits, cacheMisses := 0, 0;
      lastUpdate := now;
    }

    /** Counts an AI detection and an early exit without counting the
        analysis itself; rates are recomputed only when the total is positive. */
    method RecordAnalysisResult(isAI: bool, isEarlyExit: bool, now: int)
      requires Valid()
      modifies this`aiDetectedCount, this`earlyExitCount, this`aiDetectionRate, this`earlyExitRate,
               this`cacheHitRate, this`lastUpdate
      ensures Valid()
      ensures aiDetectedCount == old(aiDetectedCount) + (if isAI then 1 else 0)
      ensures earlyExitCount == old(earlyExitCount) + (if isEarlyExit then 1 else 0)
      ensures totalAnalyses > 0 ==> aiDetectionRate == Rate(aiDetectedCount, totalAnalyses)
                                    && earlyExitRate == Rate(earlyExitCount, totalAnalyses)
      ensures totalAnalyses <= 0 ==> aiDetectionRate == old(aiDetectionRate) && earlyExitRate == old(earlyExitRate)
      ensures cacheHits + cacheMisses > 0 ==> cacheHitRate == Rate(cacheHits, cacheHits + cacheMisses)
      ensures cacheHits + cacheMisses <= 0 ==> cacheHitRate == old(cacheHitRate)
      ensures lastUpdate == now
    {
      if isAI {
        aiDetectedCount := aiDetectedCount + 1;
      }
      if isEarlyExit {
        earlyExitCount := earlyExitCount + 1;
      }
      RefreshBusinessRates();
      RefreshHitRate();
      lastUpdate := now;
    }

    /** Folds a pipeline result's early-exit and cache-hit flags into the counters. */
    method UpdateBusinessMetrics(earlyExit: bool, cacheHit: bool, now: int)
      requires Valid()
      modifies this`earlyExitCount, this`cacheHits, this`cacheMisses, this`earlyExitRate,
               this`cacheHitRate, this`lastUpdate
      ensures Valid()
      ensures earlyExitCount == old(earlyExitCount) + (if earlyExit then 1 else 0)
      ensures cacheHits == old(cacheHits) + (if cacheHit then 1 else 0)
      ensures cacheMisses == old(cacheMisses) + (if cacheHit then 0 else 1)
      ensures totalAnalyses > 0 ==> earlyExitRate == Rate(earlyExitCount, totalAnalyses)
      ensures totalAnalyses <= 0 ==> earlyExitRate == old(earlyExitRate)
      ensures HitRateMatches()
      ensures lastUpdate == now
    {
      if earlyExit {
        earlyExitCount := earlyExitCount + 1;
      }
      if cacheHit {
        cacheHits := cacheHits + 1;
      } else {
        cacheMisses := cacheMisses + 1;
      }
      if totalAnalyses > 0 {
        earlyExitRate := earlyExitCount as real / totalAnalyses as real;
      }
      RefreshHitRate();
      lastUpdate := now;
    }

    /** Counts one analysis; an AI detection only for the four listed verdict
        strings (so plain "AI Generated" is not one); recomputes both rates. */
    method RecordVerdict(verdict: string, isEarlyExit: bool, now: int)
      requires Valid()
      modifies this`totalAnalyses, this`aiDetectedCount, this`earlyExitCount,
               this`aiDetectionRate, this`earlyExitRate, this`lastUpdate
      ensures Valid()
      ensures totalAnalyses == old(totalAnalyses) + 1
      ensures aiDetectedCount == old(aiDetectedCount) + (if verdict in AIVerdicts then 1 else 0)
      ensures earlyExitCount == old(earlyExitCount) + (if isEarlyExit then 1 else 0)
      ensures aiDetectionRate == Rate(aiDetectedCount, totalAnalyses)
      ensures earlyExitRate == Rate(earlyExitCount, totalAnalyses)
      ensures old(VerdictCountsConsistent()) ==> VerdictCountsConsistent()
      ensures lastUpdate == now
    {
      totalAnalyses := totalAnalyses + 1;
      if verdict == ConfirmedAIVerdict || verdict == VeryLikelyAIVerdict
        || verdict == LikelyAIVerdict || verdict == PossiblyAIVerdict {
        aiDetectedCount := aiDetectedCount + 1;
      }
      if isEarlyExit {
        earlyExitCount := earlyExitCount + 1;
      }
      RefreshBusinessRates();
      if old(VerdictCountsConsistent()) {
        RateBounded(aiDetectedCount, totalAnalyses);
        RateBounded(earlyExitCount, totalAnalyses);
      }
      lastUpdate := now;
    }

    /** Both business rates over the current total, left alone while the total is 0. */
    method RefreshBusinessRates()
      modifies this`aiDetectionRate, this`earlyExitRate
      ensures totalAnalyses > 0 ==> aiDetectionRate == Rate(aiDetectedCount, totalAnalyses)
                                    && earlyExitRate == Rate(earlyExitCount, totalAnalyses)
      ensures totalAnalyses <= 0 ==> aiDetectionRate == old(aiDetectionRate) && earlyExitRate == old(earlyExitRate)
    {
      if totalAnalyses > 0 {
        aiDetectionRate := aiDetectedCount as real / totalAnalyses as real;
        earlyExitRate := earlyExitCount as real / totalAnalyses as real;
      }
    }

    /** The hit share of all cache operations, left alone before the first. */
    method RefreshHitRate()
      modifies this`cacheHitRate
      ensures cacheHits + cacheMisses > 0 ==> cacheHitRate == Rate(cacheHits, cacheHits + cacheMisses)
      ensures cacheHits + cacheMisses <= 0 ==> cacheHitRate == old(cacheHitRate)
    {
      var totalCacheOps := cacheHits + cacheMisses;
      if totalCacheOps > 0 {
        cacheHitRate := cacheHits as real / totalCacheOps as real;
      }
    }

    method RecordCacheHit()
      requires Valid()
      modifies this`cacheHits, this`cacheHitRate
      ensures Valid()
      ensures cacheHits == old(cacheHits) + 1
      ensures HitRateMatches() && 0.0 < cacheHitRate <= 1.0
    {
      cacheHits := cacheHits + 1;
      var totalCacheOps := cacheHits + cacheMisses;
      if totalCacheOps > 0 {
        cacheHitRate := cacheHits as real / totalCacheOps as real;
        HitRateIsFraction(cacheHits, cacheMisses);
      }
    }

    method RecordCacheMiss()
      requires Valid()
      modifies this`cacheMisses, this`cacheHitRate
      ensures Valid()
      ensures cacheMisses == old(cacheMisses) + 1
      ensures HitRateMatches() && 0.0 <= cacheHitRate < 1.0
    {
      cacheMisses := cacheMisses + 1;
      var totalCacheOps := cacheHits + cacheMisses;
      if totalCacheOps > 0 {
        cacheHitRate := cacheHits as real / totalCacheOps as real;
        HitRateIsFraction(cacheHits, cacheMisses);
      }
    }

    /** Counts the analysis, appends its duration keeping the newest 100,
        and counts an error when it failed. */
    method RecordAnalysis(analysisType: string, duration: int, failed: bool, now: int)
      requires Valid()
      modifies this`analysisCount, this`analysisDuration, this`errorCount, this`lastUpdate
      ensures Valid()
      ensures analysisCount == old(analysisCount)[analysisType := Get0(old(analysisCount), analysisType) + 1]
      ensures analysisDuration ==
        old(analysisDuration)[analysisType := LastN(Window(old(analysisDuration), analysisType) + [duration], WindowSize)]
      ensures errorCount == if failed then old(errorCount)[analysisType := Get0(old(errorCount), analysisType) + 1]
                            else old(errorCount)
      ensures lastUpdate == now
    {
      analysisCount := analysisCount[analysisType := Get0(analysisCount, analysisType) + 1];
      var durations := if analysisType in analysisDuration then analysisDuration[analysisType] else [];
      durations := durations + [duration];
      if |durations| > 100 {
        durations := durations[1..];
      }
      analysisDuration := analysisDuration[analysisType := durations];
      if failed {
        errorCount := errorCount[analysisType := Get0(errorCount, analysisType) + 1];
      }
      lastUpdate := now;
    }

    method RecordSystemMetrics(memUsage: real, cpu: real, now: int)
      requires Valid()
      modifies this`memoryUsage, this`cpuUsage, this`lastUpdate
      ensures Valid()
      ensures memoryUsage == LastN(old(memoryUsage) + [memUsage], WindowSize)
      ensures cpuUsage == LastN(old(cpuUsage) + [cpu], WindowSize)
      ensures lastUpdate == now
    {
      memoryUsage := memoryUsage + [memUsage];
      cpuUsage := cpuUsage + [cpu];
      if |memoryUsage| > 100 {
        memoryUsage := memoryUsage[1..];
      }
      if |cpuUsage| > 100 {
        cpuUsage := cpuUsage[1..];
      }
      lastUpdate := now;
    }

    method UpdateActiveConnections(count: int, now: int)
      modifies this`activeConnections, this`lastUpdate
      ensures activeConnections == count && lastUpdate == now
    {
      activeConnections := count;
      lastUpdate := now;
    }

    /** The integer mean of the category's window (truncated toward zero),
        or 0 for an empty or missing window. */
    method GetAverageDuration(analysisType: string) returns (avg: int)
      ensures Window(analysisDuration, analysisType) == [] ==> avg == 0
      ensures Window(analysisDuration, analysisType) != [] ==>
        avg == QuoTowardZero(SeqSum(Window(analysisDuration, analysisType)), |Window(analysisDuration, analysisType)|)
    {
      var durations := if analysisType in analysisDuration then analysisDuration[analysisType] else [];
      if |durations| == 0 {
        return 0;
      }
      var total := 0;
      var i := 0;
      while i < |durations|
        invariant 0 <= i <= |durations|
        invariant total == SeqSum(durations[..i])
      {
        assert durations[..i + 1][..i] == durations[..i];
        total := total + durations[i];
        i := i + 1;
      }
      assert durations[..i] == durations;
      avg := if total >= 0 then total / |durations| else -((-total) / |durations|);
    }

    /** errors / count for a category, 0 when the count is 0. */
    method GetErrorRate(analysisType: string) returns (rate: real)
      ensures Get0(analysisCount, analysisType) == 0 ==> rate == 0.0
      ensures Get0(analysisCount, analysisType) != 0 ==>
        rate == Get0(errorCount, analysisType) as real / Get0(analysisCount, analysisType) as real
    {
      var totalCount := Get0(analysisCount, analysisType);
      if totalCount == 0 {
        return 0.0;
      }
      var errors := Get0(errorCount, analysisType);
      rate := errors as real / totalCount as real;
    }

    /** The newest memory sample, or 0 when there is none. */
    method GetCurrentMemoryUsage() returns (usage: real)
      ensures memoryUsage == [] ==> usage == 0.0
      ensures memoryUsage != [] ==> usage == memoryUsage[|memoryUsage| - 1]
    {
      if |memoryUsage| == 0 {
        return 0.0;
      }
      usage := memoryUsage[|memoryUsage| - 1];
    }

    /** The newest CPU sample, or 0 when there is none. */
    method GetCurrentCPUUsage() returns (usage: real)
      ensures cpuUsage == [] ==> usage == 0.0
      ensures cpuUsage != [] ==> usage == cpuUsage[|cpuUsage| - 1]
    {
      if |cpuUsage| == 0 {
        return 0.0;
      }
      usage := cpuUsage[|cpuUsage| - 1];
    }

    method GetBusinessMetrics() returns (b: BusinessMetrics)
      ensures b == BusinessMetrics(aiDetectionRate, cacheHitRate, earlyExitRate,
                                   totalAnalyses, aiDetectedCount, earlyExitCount)
    {
      b := BusinessMetrics(aiDetectionRate, cacheHitRate, earlyExitRate,
                           totalAnalyses, aiDetectedCount, earlyExitCount);
    }

    /** Totals over every category (in whatever order the map yields them)
        and the overall error rate, 0 when nothing was counted. */
    method GetOverallMetrics() returns (o: OverallMetrics)
      ensures o.totalAnalyses == MapTotal(analysisCount)
      ensures o.totalErrors == MapTotal(errorCount)
      ensures o.totalAnalyses > 0 ==> o.overallErrorRate == Rate(o.totalErrors, o.totalAnalyses)
      ensures o.totalAnalyses <= 0 ==> o.overallErrorRate == 0.0
    {
      var counts := analysisCount;
      var errors := errorCount;
      var totalAnalyses := 0;
      var pending := counts.Keys;
      ghost var seen: set<string> := {};
      while pending != {}
        invariant pending !! seen && pending + seen == counts.Keys
        invariant totalAnalyses == SumInt(seen, k => Get0(counts, k))
        decreases pending
      {
        var k :| k in pending;
        SumIntAdd(seen, k => Get0(counts, k), k);
        totalAnalyses := totalAnalyses + counts[k];
        seen := seen + {k};
        pending := pending - {k};
      }
      var totalErrors := 0;
      pending := errors.Keys;
      seen := {};
      while pending != {}
        invariant pending !! seen && pending + seen == errors.Keys
        invariant totalErrors == SumInt(seen, k => Get0(errors, k))
        decreases pending
      {
        var k :| k in pending;
        SumIntAdd(seen, k => Get0(errors, k), k);
        totalErrors := totalErrors + errors[k];
        seen := seen + {k};
        pending := pending - {k};
      }
      var rate := 0.0;
      if totalAnalyses > 0 {
        rate := totalErrors as real / totalAnalyses as real;
      }
      o := OverallMetrics(totalAnalyses, totalErrors, rate);
    }

    /** Average duration in whole milliseconds, error rate and counters of
        one category ("pipeline" or "upload"). */
    method GetCategoryMetrics(category: string) returns (c: CategoryMetrics)
      ensures c.totalCount == Get0(analysisCount, category) && c.errorCount == Get0(errorCount, category)
      ensures c.totalCount == 0 ==> c.errorRate == 0.0
      ensures c.totalCount != 0 ==> c.errorRate == c.errorCount as real / c.totalCount as real
      ensures Window(analysisDuration, category) == [] ==> c.averageDurationMs == 0
      ensures Window(analysisDuration, category) != [] ==>
        c.averageDurationMs == QuoTowardZero(
          QuoTowardZero(SeqSum(Window(analysisDuration, category)), |Window(analysisDuration, category)|),
          1_000_000)
    {
      var avg := GetAverageDuration(category);
      var rate := GetErrorRate(category);
      var ms := if avg >= 0 then avg / 1_000_000 else -((-avg) / 1_000_000);
      c := CategoryMetrics(ms, rate, Get0(analysisCount, category), Get0(errorCount, category));
    }

    method GetPipelineMetrics() returns (c: CategoryMetrics)
      ensures c.totalCount == Get0(analysisCount, "pipeline") && c.errorCount == Get0(errorCount, "pipeline")
      ensures c.totalCount == 0 ==> c.errorRate == 0.0
      ensures c.totalCount != 0 ==> c.errorRate == c.errorCount as real / c.totalCount as real
      ensures Window(analysisDuration, "pipeline") == [] ==> c.averageDurationMs == 0
      ensures Window(analysisDuration, "pipeline") != [] ==>
        c.averageDurationMs == QuoTowardZero(
          QuoTowardZero(SeqSum(Window(analysisDuration, "pipeline")), |Window(analysisDuration, "pipeline")|),
          1_000_000)
    {
      c := GetCategoryMetrics("pipeline");
    }

    method GetUploadMetrics() returns (c: CategoryMetrics)
      ensures c.totalCount == Get0(analysisCount, "upload") && c.errorCount == Get0(errorCount, "upload")
      ensures c.totalCount == 0 ==> c.errorRate == 0.0
      ensures c.totalCount != 0 ==> c.errorRate == c.errorCount as real / c.totalCount as real
      ensures Window(analysisDuration, "upload") == [] ==> c.averageDurationMs == 0
      ensures Window(analysisDuration, "upload") != [] ==>
        c.averageDurationMs == QuoTowardZero(
          QuoTowardZero(SeqSum(Window(analysisDuration, "upload")), |Window(analysisDuration, "upload")|),
          1_000_000)
    {
      c := GetCategoryMetrics("upload");
    }

    method GetSystemMetrics() returns (s: SystemMetrics)
      ensures s.activeConnections == activeConnections
      ensures s.cacheHits == cacheHits && s.cacheMisses == cacheMisses
      ensures s.memoryUsage == (if memoryUsage == [] then 0.0 else memoryUsage[|memoryUsage| - 1])
      ensures s.cpuUsage == (if cpuUsage == [] then 0.0 else cpuUsage[|cpuUsage| - 1])
    {
      var mem := GetCurrentMemoryUsage();
      var cpu := GetCurrentCPUUsage();
      s := SystemMetrics(activeConnections, cacheHits, cacheMisses, mem, cpu);
    }

    /** LastUpdate is reported in whole seconds (rounded down). */
    method GetSummary() returns (s: Summary)
      ensures s.business == BusinessMetrics(aiDetectionRate, cacheHitRate, earlyExitRate,
                                            totalAnalyses, aiDetectedCount, earlyExitCount)
      ensures s.cacheHits == cacheHits && s.cacheMisses == cacheMisses && s.cacheHitRate == cacheHitRate
      ensures s.analysisCount == analysisCount && s.errorCount == errorCount
      ensures s.activeConnections == activeConnections
      ensures s.lastUpdateUnix * 1_000_000_000 <= lastUpdate < (s.lastUpdateUnix + 1) * 1_000_000_000
    {
      var b := GetBusinessMetrics();
      s := Summary(b, cacheHits, cacheMisses, cacheHitRate, analysisCount, errorCount,
                   activeConnections, lastUpdate / 1_000_000_000);
    }

    /** Restores exactly the freshly constructed state. */
    method Reset(now: int)
      modifies this
      ensures Valid() && HitRateMatches() && VerdictCountsConsistent()
      ensures IsZero()
      ensures lastUpdate == now
    {
      ClearAnalysisCounters();
      ClearCacheAndGauges(now);
      ZeroStateIsValid();
    }

    /** The first half of Reset: categories and business counters. */
    method ClearAnalysisCounters()
      modifies this`analysisCount, this`analysisDuration, this`errorCount, this`totalAnalyses,
               this`aiDetectedCount, this`earlyExitCount, this`aiDetectionRate, this`earlyExitRate
      ensures |analysisCount| == 0 && |analysisDuration| == 0 && |errorCount| == 0
      ensures totalAnalyses == 0 && aiDetectedCount == 0 && earlyExitCount == 0
      ensures aiDetectionRate == 0.0 && earlyExitRate == 0.0
    {
      analysisCount, analysisDuration, errorCount := map[], map[], map[];
      totalAnalyses, aiDetectedCount, earlyExitCount := 0, 0, 0;
      aiDetectionRate, earlyExitRate := 0.0, 0.0;
    }

    /** The second half of Reset: cache counters, system gauges, timestamp. */
    method ClearCacheAndGauges(now: int)
      modifies this`cacheHitRate, this`cacheHits, this`cacheMisses, this`memoryUsage, this`cpuUsage,
               this`activeConnections, this`lastUpdate
      ensures cacheHitRate == 0.0 && cacheHits == 0 && cacheMisses == 0
      ensures |memoryUsage| == 0 && |cpuUsage| == 0 && activeConnections == 0 && lastUpdate == now
    {
      cacheHitRate, cacheHits, cacheMisses := 0.0, 0, 0;
      memoryUsage, cpuUsage := [], [];
      activeConnections := 0;
      lastUpdate := now;
    }

    /** The zero state satisfies every invariant. */
    lemma ZeroStateIsValid()
      requires IsZero()
      ensures Valid() && HitRateMatches() && VerdictCountsConsistent()
    {
    }

    method IncrementActiveConnections(now: int)
      modifies this`activeConnections, this`lastUpdate
      ensures activeConnections == old(activeConnections) + 1 && lastUpdate == now
    {
      activeConnections := activeConnections + 1;
      lastUpdate := now;
    }

    /** Never takes the gauge below zero. */
    method DecrementActiveConnections(now: int)
      modifies this`activeConnections, this`lastUpdate
      ensures activeConnections == if old(activeConnections) > 0 then old(activeConnections) - 1
                                   else old(activeConnections)
      ensures old(activeConnections) >= 0 ==> activeConnections >= 0
      ensures lastUpdate == now
    {
      if activeConnections > 0 {
        activeConnections := activeConnections - 1;
      }
      lastUpdate := now;
    }

    /** Bumps only the category's error counter. */
    method RecordError(category: string, now: int)
      requires Valid()
      modifies this`errorCount, this`lastUpdate
      ensures Valid()
      ensures errorCount == old(errorCount)[category := Get0(old(errorCount), category) + 1]
      ensures lastUpdate == now
    {
      errorCount := errorCount[category := Get0(errorCount, category) + 1];
      lastUpdate := now;
    }

    /** Bumps only the category's analysis counter. */
    method RecordSuccess(category: string, now: int)
      requires Valid()
      modifies this`analysisCount, this`lastUpdate
      ensures Valid()
      ensures analysisCount == old(analysisCount)[category := Get0(old(analysisCount), category) + 1]
      ensures lastUpdate == now
    {
      analysisCount := analysisCount[category := Get0(analysisCount, category) + 1];
      lastUpdate := now;
    }

    /** Drops the oldest sample when the window is full, then appends: the
        same newest-100 window that RecordAnalysis keeps. */
    method RecordDuration(category: string, duration: int, now: int)
      requires Valid()
      modifies this`analysisDuration, this`lastUpdate
      ensures Valid()
      ensures analysisDuration ==
        old(analysisDuration)[category := LastN(Window(old(analysisDuration), category) + [duration], WindowSize)]
      ensures lastUpdate == now
    {
      var durations := if category in analysisDuration then analysisDuration[category] else [];
      ghost var appended := durations + [duration];
      if |durations| >= 100 {
        assert |durations| == 100;
        durations := durations[1..];
      }
      durations := durations + [duration];
      assert durations == LastN(appended, WindowSize);
      analysisDuration := analysisDuration[category := durations];
      lastUpdate := now;
    }
  }

  /** A window never exceeds 100 samples however many are recorded, and
      always ends with the newest sample. */
  lemma WindowKeepsNewest(window: seq<int>, d: int)
    requires |window| <= WindowSize
    ensures |LastN(window + [d], WindowSize)| <= WindowSize
    ensures LastN(window + [d], WindowSize)[|LastN(window + [d], WindowSize)| - 1] == d
  {
  }

  /** The cache hit rate is a fraction whenever it is defined: positive
      once there is a hit, below one while there is a miss. */
  lemma HitRateIsFraction(hits: int, misses: int)
    requires hits >= 0 && misses >= 0 && hits + misses > 0
    ensures 0.0 <= Rate(hits, hits + misses) <= 1.0
    ensures hits > 0 ==> 0.0 < Rate(hits, hits + misses)
    ensures misses > 0 ==> Rate(hits, hits + misses) < 1.0
  {
    QuotientSign(hits as real, (hits + misses) as real);
  }

  lemma QuotientSign(a: real, t: real)
    requires 0.0 <= a <= t && t > 0.0
    ensures 0.0 <= a / t <= 1.0
    ensures a > 0.0 ==> a / t > 0.0
    ensures a < t ==> a / t < 1.0
  {
    var q := a / t;
    assert q * t == a;
  }

  /** A count bounded by the total gives a rate in [0, 1]. */
  lemma {:induction false} RateBounded(part: int, total: int)
    requires 0 <= part <= total && total > 0
    ensures 0.0 <= Rate(part, total) <= 1.0
  {
    assert part as real <= total as real;
  }
}
