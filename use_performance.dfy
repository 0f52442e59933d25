/**
 * The web-performance hook (hooks/usePerformance.ts): the partial metrics record, its
 * updates from the navigation and paint timings and from observed performance entries, and
 * the 0-100 score with fixed deductions.
 */
module UsePerformance {
  import opened Options

  /** `Partial<PerformanceMetrics>`: each metric is present or absent. */
  datatype Metrics = Metrics(fcp: Option<real>, lcp: Option<real>, fid: Option<real>, cls: Option<real>, ttfb: Option<real>)

  /** `Object.keys(metrics).length === 0`. */
  predicate IsEmpty(m: Metrics) {
    m.fcp.None? && m.lcp.None? && m.fid.None? && m.cls.None? && m.ttfb.None?
  }

  /** JavaScript truthiness of an optional number: present and not 0. */
  predicate Truthy(v: Option<real>) {
    v.Some? && v.value != 0.0
  }

  /** `if (metric && metric > threshold) score -= points`: the points a metric costs. */
  function Penalty(v: Option<real>, threshold: real, points: nat): (p: nat)
    ensures p == 0 || p == points
    ensures p == points && points > 0 <==> points > 0 && Truthy(v) && v.value > threshold
  {
    if Truthy(v) && v.value > threshold then points else 0
  }

  /** Whether each metric is over its budget. */
  predicate SlowFcp(m: Metrics) { m.fcp.Some? && m.fcp.value > 2000.0 }
  predicate SlowLcp(m: Metrics) { m.lcp.Some? && m.lcp.value > 2500.0 }
  predicate SlowFid(m: Metrics) { m.fid.Some? && m.fid.value > 100.0 }
  predicate SlowCls(m: Metrics) { m.cls.Some? && m.cls.value > 0.1 }
  predicate SlowTtfb(m: Metrics) { m.ttfb.Some? && m.ttfb.value > 600.0 }

  /** The score the source computes: 0 without metrics, else 100 less the five penalties, at least 0. */
  function Score(m: Metrics): (r: int)
    ensures 0 <= r <= 100
    ensures IsEmpty(m) ==> r == 0
  {
    if IsEmpty(m) then 0
    else
      var s := 100 - Penalty(m.fcp, 2000.0, 20) - Penalty(m.lcp, 2500.0, 25) - Penalty(m.fid, 100.0, 20)
                   - Penalty(m.cls, 0.1, 15) - Penalty(m.ttfb, 600.0, 20);
      if s < 0 then 0 else s
  }

  /** `getPerformanceScore()`: the deductions applied one after another to a local score. */
  method GetPerformanceScore(m: Metrics) returns (result: int)
    ensures result == Score(m)
  {
    if IsEmpty(m) {
      return 0;
    }
    var score := 100;
    if Truthy(m.fcp) && m.fcp.value > 2000.0 { score := score - 20; }
    if Truthy(m.lcp) && m.lcp.value > 2500.0 { score := score - 25; }
    if Truthy(m.fid) && m.fid.value > 100.0 { score := score - 20; }
    if Truthy(m.cls) && m.cls.value > 0.1 { score := score - 15; }
    if Truthy(m.ttfb) && m.ttfb.value > 600.0 { score := score - 20; }
    result := if score < 0 then 0 else score;
  }

  /**
   * With some metric recorded, the score is exactly 100 less the points of each metric over
   * its budget; a missing metric, or one recorded as 0, costs nothing.
   */
  lemma {:induction false} ScoreDeductions(m: Metrics)
    requires !IsEmpty(m)
    ensures Score(m) == 100 - (if SlowFcp(m) then 20 else 0) - (if SlowLcp(m) then 25 else 0)
                            - (if SlowFid(m) then 20 else 0) - (if SlowCls(m) then 15 else 0)
                            - (if SlowTtfb(m) then 20 else 0)
  {
  }

  /** The full score: some metric is recorded and none is over its budget. */
  lemma {:induction false} FullScoreIff(m: Metrics)
    ensures Score(m) == 100 <==> !IsEmpty(m) && !SlowFcp(m) && !SlowLcp(m) && !SlowFid(m) && !SlowCls(m) && !SlowTtfb(m)
  {
    if !IsEmpty(m) {
      ScoreDeductions(m);
    }
  }

  /** A score of 0: nothing recorded, or all five metrics over budget (the deductions add up to 100). */
  lemma {:induction false} ZeroScoreIff(m: Metrics)
    ensures Score(m) == 0 <==> IsEmpty(m) || (SlowFcp(m) && SlowLcp(m) && SlowFid(m) && SlowCls(m) && SlowTtfb(m))
  {
    if !IsEmpty(m) {
      ScoreDeductions(m);
    }
  }

  /** `m1` is at least as slow as `m0` on every metric, with the same metrics recorded. */
  predicate NoFaster(m0: Metrics, m1: Metrics) {
    && NoFasterValue(m0.fcp, m1.fcp) && NoFasterValue(m0.lcp, m1.lcp) && NoFasterValue(m0.fid, m1.fid)
    && NoFasterValue(m0.cls, m1.cls) && NoFasterValue(m0.ttfb, m1.ttfb)
  }

  predicate NoFasterValue(a: Option<real>, b: Option<real>) {
    a.Some? == b.Some? && (a.Some? ==> a.value <= b.value)
  }

  /** Slower metrics never earn a higher score. */
  lemma {:induction false} SlowerNeverScoresHigher(m0: Metrics, m1: Metrics)
    requires NoFaster(m0, m1)
    ensures Score(m1) <= Score(m0)
  {
    if !IsEmpty(m0) {
      ScoreDeductions(m0);
      ScoreDeductions(m1);
    }
  }

  /**
   * `measurePerformance`: a new record holding only the time to first byte (from the
   * navigation timing, when there is one) and the first contentful paint (when painted).
   * `navigation` is `(responseStart, requestStart)`.
   */
  function Measure(navigation: Option<(real, real)>, firstContentfulPaint: Option<real>): (r: Metrics)
    ensures r.ttfb.Some? <==> navigation.Some?
    ensures navigation.Some? ==> r.ttfb.value == navigation.value.0 - navigation.value.1
    ensures r.fcp == firstContentfulPaint
    ensures r.lcp.None? && r.fid.None? && r.cls.None?
  {
    Metrics(firstContentfulPaint, None, None, None,
            match navigation case None => None case Some(t) => Some(t.0 - t.1))
  }

  /** A performance entry, as the observer sees it. */
  datatype Entry =
    | LargestContentfulPaint(startTime: real)
    | FirstInput(processingStart: real, startTime: real)
    | LayoutShift(hadRecentInput: bool, value: real)

  /** `prev.cls || 0`. */
  function ClsOrZero(m: Metrics): real {
    if Truthy(m.cls) then m.cls.value else 0.0
  }

  /** The state updater for one observed entry. */
  function Observe(m: Metrics, e: Entry): (r: Metrics)
    ensures e.LargestContentfulPaint? ==> r == m.(lcp := Some(e.startTime))
    ensures e.FirstInput? ==> r == m.(fid := Some(e.processingStart - e.startTime))
    ensures e.LayoutShift? && e.hadRecentInput ==> r == m
    ensures e.LayoutShift? && !e.hadRecentInput ==> r == m.(cls := Some(ClsOrZero(m) + e.value))
  {
    match e
    case LargestContentfulPaint(t) => m.(lcp := Some(t))
    case FirstInput(start, t) => m.(fid := Some(start - t))
    case LayoutShift(recent, v) => if recent then m else m.(cls := Some(ClsOrZero(m) + v))
  }

  /** The callback's `forEach` over a batch of entries, each applied to the latest state. */
  function ObserveAll(m: Metrics, entries: seq<Entry>): Metrics {
    if entries == [] then m else Observe(ObserveAll(m, entries[..|entries| - 1]), entries[|entries| - 1])
  }

  /** The layout-shift value a batch contributes: the shifts without recent input. */
  function ShiftSum(entries: seq<Entry>): real {
    if entries == [] then 0.0
    else
      var e := entries[|entries| - 1];
      ShiftSum(entries[..|entries| - 1]) + (if e.LayoutShift? && !e.hadRecentInput then e.value else 0.0)
  }

  /** The layout shift is the running sum of the shifts that did not follow recent input. */
  lemma {:induction false} ClsAccumulates(m: Metrics, entries: seq<Entry>)
    ensures ClsOrZero(ObserveAll(m, entries)) == ClsOrZero(m) + ShiftSum(entries)
  {
    if entries != [] {
      var init := entries[..|entries| - 1];
      ClsAccumulates(m, init);
    }
  }

  /** With the non-negative values the browser reports, the layout shift never decreases. */
  lemma {:induction false} ClsNeverDecreases(m: Metrics, entries: seq<Entry>)
    requires forall i :: 0 <= i < |entries| && entries[i].LayoutShift? ==> entries[i].value >= 0.0
    ensures ClsOrZero(ObserveAll(m, entries)) >= ClsOrZero(m)
  {
    ClsAccumulates(m, entries);
    ShiftSumNonNegative(entries);
  }

  lemma {:induction false} ShiftSumNonNegative(entries: seq<Entry>)
    requires forall i :: 0 <= i < |entries| && entries[i].LayoutShift? ==> entries[i].value >= 0.0
    ensures ShiftSum(entries) >= 0.0
  {
    if entries != [] {
      ShiftSumNonNegative(entries[..|entries| - 1]);
    }
  }

  /** Shifts that follow recent input are ignored entirely. */
  lemma {:induction false} RecentInputIgnored(m: Metrics, entries: seq<Entry>)
    requires forall i :: 0 <= i < |entries| ==> entries[i].LayoutShift? && entries[i].hadRecentInput
    ensures ObserveAll(m, entries) == m
  {
    if entries != [] {
      RecentInputIgnored(m, entries[..|entries| - 1]);
    }
  }
}
