/** Migration health monitoring: request statistics of the S-expression
    service become health metrics (rates in percent), metrics are checked
    against alert thresholds, a bounded history of metrics is kept, and
    trends are computed over a time window. The service statistics and the
    clock (seconds) are parameters; timestamps are those seconds. */
module MigrationMonitor {
  import opened Common

  const HistoryLimit: nat := 100
  /** The placeholder compatibility rate `collect_metrics` reports. */
  const AssumedCompatibility: real := 95.0

  datatype HealthMetrics = HealthMetrics(
    timestamp: int,
    errorRate: real,
    avgResponseTime: real,
    fallbackRate: real,
    compatibilityRate: real,
    totalRequests: int,
    handlerRequests: int,
    generatorRequests: int,
    validationFailures: int)

  datatype AlertThresholds = AlertThresholds(
    maxErrorRate: real,
    maxResponseTime: real,
    maxFallbackRate: real,
    minCompatibilityRate: real)

  const DefaultThresholds := AlertThresholds(1.0, 5.0, 5.0, 95.0)

  /** What `get_performance_stats()` of the service reports. */
  datatype ServiceStats = ServiceStats(
    generatorCount: int, generatorErrors: int, generatorTime: real,
    handlerCount: int, handlerErrors: int, handlerTime: real,
    fallbacks: int)

  /** `x / total * 100`, or 0 when there are no requests. */
  function Percent(x: real, total: int): (r: real)
    ensures total > 0 ==> r * total as real == x * 100.0
    ensures total <= 0 ==> r == 0.0
  {
    if total > 0 then x / total as real * 100.0 else 0.0
  }

  /** `collect_metrics` without the history update. */
  function Metrics(s: ServiceStats, now: int): (m: HealthMetrics)
    ensures m.timestamp == now
    ensures m.totalRequests == s.generatorCount + s.handlerCount
    ensures m.totalRequests > 0 ==>
      && m.errorRate * m.totalRequests as real == (s.generatorErrors + s.handlerErrors) as real * 100.0
      && m.fallbackRate * m.totalRequests as real == s.fallbacks as real * 100.0
      && m.avgResponseTime * m.totalRequests as real == s.generatorTime + s.handlerTime
    ensures m.totalRequests <= 0 ==> m.errorRate == 0.0 && m.fallbackRate == 0.0 && m.avgResponseTime == 0.0
    ensures m.handlerRequests == s.handlerCount && m.generatorRequests == s.generatorCount
    ensures m.compatibilityRate == AssumedCompatibility && m.validationFailures == 0
  {
    var total := s.generatorCount + s.handlerCount;
    var avg := if total > 0 then (s.generatorTime + s.handlerTime) / total as real else 0.0;
    HealthMetrics(now,
                  Percent((s.generatorErrors + s.handlerErrors) as real, total),
                  avg,
                  Percent(s.fallbacks as real, total),
                  AssumedCompatibility,
                  total, s.handlerCount, s.generatorCount, 0)
  }

  /** The last `HistoryLimit` entries of `h`. */
  function Capped(h: seq<HealthMetrics>): seq<HealthMetrics> {
    if |h| > HistoryLimit then h[|h| - HistoryLimit..] else h
  }

  /** Appending to the history keeps at most 100 entries, the newest last;
      below the limit nothing is dropped, at the limit the oldest is. */
  lemma HistoryCap(h: seq<HealthMetrics>, m: HealthMetrics)
    requires |h| <= HistoryLimit
    ensures var r := Capped(h + [m]);
      && |r| <= HistoryLimit
      && r[|r| - 1] == m
      && (|h| < HistoryLimit ==> r == h + [m])
      && (|h| == HistoryLimit ==> r == h[1..] + [m])
  {
    if |h| == HistoryLimit {
      assert (h + [m])[1..] == h[1..] + [m];
    }
  }

  // ---------------------------------------------------------------------
  // Alerts

  datatype AlertKind = ErrorRate | ResponseTime | FallbackRate | CompatibilityRate

  /** Health levels; alerts are only ever Warning or Critical. */
  datatype Level = Healthy | Warning | Critical

  datatype Alert = Alert(kind: AlertKind, severity: Level, current: real, threshold: real)

  function Rank(k: AlertKind): nat {
    match k
    case ErrorRate => 0
    case ResponseTime => 1
    case FallbackRate => 2
    case CompatibilityRate => 3
  }

  /** `_check_alerts`: the four checks in their fixed order. */
  function CheckAlerts(m: HealthMetrics, t: AlertThresholds): (alerts: seq<Alert>)
  {
    (if m.errorRate > t.maxErrorRate
     then [Alert(ErrorRate, if m.errorRate > t.maxErrorRate * 2.0 then Critical else Warning,
                 m.errorRate, t.maxErrorRate)]
     else [])
    + (if m.avgResponseTime > t.maxResponseTime
       then [Alert(ResponseTime, if m.avgResponseTime > t.maxResponseTime * 2.0 then Critical else Warning,
                   m.avgResponseTime, t.maxResponseTime)]
       else [])
    + (if m.fallbackRate > t.maxFallbackRate
       then [Alert(FallbackRate, Warning, m.fallbackRate, t.maxFallbackRate)]
       else [])
    + (if m.compatibilityRate < t.minCompatibilityRate
       then [Alert(CompatibilityRate, if m.compatibilityRate < t.minCompatibilityRate * 0.9 then Critical else Warning,
                   m.compatibilityRate, t.minCompatibilityRate)]
       else [])
  }

  predicate HasKind(alerts: seq<Alert>, k: AlertKind) {
    exists i :: 0 <= i < |alerts| && alerts[i].kind == k
  }

  /** Each alert fires exactly when its metric crosses its threshold; at most
      four alerts come out, one per kind, in the fixed kind order. */
  lemma AlertsFireOnThresholds(m: HealthMetrics, t: AlertThresholds)
    ensures var a := CheckAlerts(m, t);
      && |a| <= 4
      && (HasKind(a, ErrorRate) <==> m.errorRate > t.maxErrorRate)
      && (HasKind(a, ResponseTime) <==> m.avgResponseTime > t.maxResponseTime)
      && (HasKind(a, FallbackRate) <==> m.fallbackRate > t.maxFallbackRate)
      && (HasKind(a, CompatibilityRate) <==> m.compatibilityRate < t.minCompatibilityRate)
      && (forall i, j :: 0 <= i < j < |a| ==> Rank(a[i].kind) < Rank(a[j].kind))
  {
    var e := if m.errorRate > t.maxErrorRate then 1 else 0;
    var r := if m.avgResponseTime > t.maxResponseTime then 1 else 0;
    var f := if m.fallbackRate > t.maxFallbackRate then 1 else 0;
    var a := CheckAlerts(m, t);
    assert e == 1 ==> a[0].kind == ErrorRate;
    assert r == 1 ==> a[e].kind == ResponseTime;
    assert f == 1 ==> a[e + r].kind == FallbackRate;
    assert m.compatibilityRate < t.minCompatibilityRate ==> a[e + r + f].kind == CompatibilityRate;
  }

  /** Severity rules: error-rate and response-time alerts are critical beyond
      twice the threshold, the fallback alert is always a warning, and the
      compatibility alert is critical below 90% of the minimum. Every alert
      carries its metric and threshold. */
  lemma AlertSeverities(m: HealthMetrics, t: AlertThresholds)
    ensures var a := CheckAlerts(m, t);
      forall i :: 0 <= i < |a| ==>
        && a[i].severity != Healthy
        && (a[i].kind == ErrorRate ==>
              a[i].current == m.errorRate && a[i].threshold == t.maxErrorRate
              && (a[i].severity == Critical <==> m.errorRate > t.maxErrorRate * 2.0))
        && (a[i].kind == ResponseTime ==>
              a[i].current == m.avgResponseTime && a[i].threshold == t.maxResponseTime
              && (a[i].severity == Critical <==> m.avgResponseTime > t.maxResponseTime * 2.0))
        && (a[i].kind == FallbackRate ==>
              a[i].current == m.fallbackRate && a[i].threshold == t.maxFallbackRate
              && a[i].severity == Warning)
        && (a[i].kind == CompatibilityRate ==>
              a[i].current == m.compatibilityRate && a[i].threshold == t.minCompatibilityRate
              && (a[i].severity == Critical <==> m.compatibilityRate < t.minCompatibilityRate * 0.9))
  {
  }

  /** `_is_warning_level`: every alert is a warning (true for no alerts). */
  predicate IsWarningLevel(alerts: seq<Alert>) {
    forall i :: 0 <= i < |alerts| ==> alerts[i].severity == Warning
  }

  /** The `overall_status` of `check_health`. */
  function OverallStatus(alerts: seq<Alert>): (s: Level)
    ensures s == Healthy <==> alerts == []
    ensures s == Warning <==> alerts != [] && IsWarningLevel(alerts)
  {
    if alerts == [] then Healthy else if IsWarningLevel(alerts) then Warning else Critical
  }

  /** The status in terms of the metrics: healthy iff no threshold is crossed,
      critical iff some metric is past its critical bound. */
  lemma StatusFromMetrics(m: HealthMetrics, t: AlertThresholds)
    ensures var s := OverallStatus(CheckAlerts(m, t));
      && (s == Healthy <==>
            m.errorRate <= t.maxErrorRate && m.avgResponseTime <= t.maxResponseTime
            && m.fallbackRate <= t.maxFallbackRate && m.compatibilityRate >= t.minCompatibilityRate)
      && (s == Critical <==>
            (m.errorRate > t.maxErrorRate && m.errorRate > t.maxErrorRate * 2.0)
            || (m.avgResponseTime > t.maxResponseTime && m.avgResponseTime > t.maxResponseTime * 2.0)
            || (m.compatibilityRate < t.minCompatibilityRate && m.compatibilityRate < t.minCompatibilityRate * 0.9))
  {
    var a := CheckAlerts(m, t);
    AlertsFireOnThresholds(m, t);
    AlertSeverities(m, t);
    if m.errorRate > t.maxErrorRate { assert a[0].kind == ErrorRate; }
  }

  // ---------------------------------------------------------------------
  // Trends

  datatype Trends = Trends(
    errorRateTrend: real,
    responseTimeTrend: real,
    fallbackRateTrend: real,
    requestVolumeTrend: int,
    handlerAdoptionRate: real)

  datatype TrendAnalysis =
    | InsufficientData
    | Analysis(windowMinutes: int, dataPoints: nat, trends: Trends, summary: string)

  /** The history entries no older than `cutoff`, in history order. */
  function InWindow(h: seq<HealthMetrics>, cutoff: int): (r: seq<HealthMetrics>)
    ensures |r| <= |h|
    ensures forall i :: 0 <= i < |r| ==> r[i] in h && r[i].timestamp >= cutoff
  {
    if h == [] then []
    else (if h[0].timestamp >= cutoff then [h[0]] else []) + InWindow(h[1..], cutoff)
  }

  lemma {:induction false} InWindowKeepsRecent(h: seq<HealthMetrics>, cutoff: int)
    ensures forall m :: m in h && m.timestamp >= cutoff ==> m in InWindow(h, cutoff)
  {
    if h != [] {
      InWindowKeepsRecent(h[1..], cutoff);
      forall m | m in h && m.timestamp >= cutoff
        ensures m in InWindow(h, cutoff)
      {
        if m != h[0] {
          assert m in h[1..];
        }
      }
    }
  }

  /** Trends between the oldest and the newest in-window entries. */
  function TrendsBetween(first: HealthMetrics, latest: HealthMetrics): (t: Trends)
  {
    Trends(latest.errorRate - first.errorRate,
           latest.avgResponseTime - first.avgResponseTime,
           latest.fallbackRate - first.fallbackRate,
           latest.totalRequests - first.totalRequests,
           Percent(latest.handlerRequests as real, latest.totalRequests))
  }

  datatype Phrase =
    | ErrorRising | ErrorFalling
    | ResponseRising | ResponseImproving
    | FallbackRising
    | HandlerAdoption(rate: real)
    | Stable

  /** The conditions `_generate_trend_summary` checks, in order. */
  function SummaryPhrases(t: Trends): (ps: seq<Phrase>)
  {
    var found :=
      (if t.errorRateTrend > 0.5 then [ErrorRising]
       else if t.errorRateTrend < -0.5 then [ErrorFalling] else [])
      + (if t.responseTimeTrend > 0.1 then [ResponseRising]
         else if t.responseTimeTrend < -0.1 then [ResponseImproving] else [])
      + (if t.fallbackRateTrend > 1.0 then [FallbackRising] else [])
      + (if t.handlerAdoptionRate > 50.0 then [HandlerAdoption(t.handlerAdoptionRate)] else []);
    if found == [] then [Stable] else found
  }

  /** Each phrase appears exactly when its strict threshold is crossed, and the
      summary is "stable" exactly when nothing else applies. */
  lemma SummaryPhrasesOnThresholds(t: Trends)
    ensures var ps := SummaryPhrases(t);
      && 1 <= |ps| <= 4
      && (ErrorRising in ps <==> t.errorRateTrend > 0.5)
      && (ErrorFalling in ps <==> t.errorRateTrend < -0.5)
      && (ResponseRising in ps <==> t.responseTimeTrend > 0.1)
      && (ResponseImproving in ps <==> t.responseTimeTrend < -0.1)
      && (FallbackRising in ps <==> t.fallbackRateTrend > 1.0)
      && (HandlerAdoption(t.handlerAdoptionRate) in ps <==> t.handlerAdoptionRate > 50.0)
  {
  }

  lemma SummaryStableWhenNothingApplies(t: Trends)
    ensures var ps := SummaryPhrases(t);
      && (Stable in ps <==> ps == [Stable])
      && (ps == [Stable] <==>
            -0.5 <= t.errorRateTrend <= 0.5 && -0.1 <= t.responseTimeTrend <= 0.1
            && t.fallbackRateTrend <= 1.0 && t.handlerAdoptionRate <= 50.0)
  {
  }

  /** The summary texts exactly as the source spells them: each starts with
      the characters its literal holds (an emoji saved in a mis-decoded form),
      then a space and the English phrase. */
  function PhraseText(p: Phrase): string {
    match p
    case ErrorRising => "\U{F8FF}\U{FC}\U{EE}\U{A5} Error rate increasing"
    case ErrorFalling => "\U{F8FF}\U{FC}\U{FC}\U{A2} Error rate decreasing"
    case ResponseRising => "\U{F8FF}\U{FC}\U{EE}\U{A5} Response time increasing"
    case ResponseImproving => "\U{F8FF}\U{FC}\U{FC}\U{A2} Response time improving"
    case FallbackRising => "\U{201A}\U{F6}\U{2020}\U{D4}\U{220F}\U{E8} Fallback rate increasing"
    case HandlerAdoption(rate) =>
      "\U{F8FF}\U{FC}\U{EC}\U{E0} Handler adoption at " + (if rate >= 0.0 then Tenths(rate) else "") + "%"
    case Stable => "\U{F8FF}\U{FC}\U{EC}\U{E4} Metrics stable"
  }

  function PhraseTexts(ps: seq<Phrase>): (r: seq<string>)
    ensures |r| == |ps|
    ensures forall i :: 0 <= i < |ps| ==> r[i] == PhraseText(ps[i])
  {
    if ps == [] then [] else [PhraseText(ps[0])] + PhraseTexts(ps[1..])
  }

  function TrendSummary(t: Trends): string {
    Join(PhraseTexts(SummaryPhrases(t)), " | ")
  }

  /** A rising error rate alone gives its one phrase, as the source spells it. */
  lemma RisingErrorSummary(t: Trends)
    requires t.errorRateTrend > 0.5 && -0.1 <= t.responseTimeTrend <= 0.1
    requires t.fallbackRateTrend <= 1.0 && t.handlerAdoptionRate <= 50.0
    ensures TrendSummary(t) == "\U{F8FF}\U{FC}\U{EE}\U{A5} Error rate increasing"
  {
    assert SummaryPhrases(t) == [ErrorRising];
  }

  /** With no threshold crossed the summary is the "stable" text alone. */
  lemma StableSummary(t: Trends)
    requires -0.5 <= t.errorRateTrend <= 0.5 && -0.1 <= t.responseTimeTrend <= 0.1
    requires t.fallbackRateTrend <= 1.0 && t.handlerAdoptionRate <= 50.0
    ensures TrendSummary(t) == "\U{F8FF}\U{FC}\U{EC}\U{E4} Metrics stable"
  {
    assert SummaryPhrases(t) == [Stable];
  }

  /** `get_trend_analysis` over a given history, clock and window. */
  function Analyse(h: seq<HealthMetrics>, now: int, windowMinutes: int): (r: TrendAnalysis)
    ensures var recent := InWindow(h, now - windowMinutes * 60);
      && (r.InsufficientData? <==> |recent| < 2)
      && (r.Analysis? ==>
            && r.windowMinutes == windowMinutes
            && r.dataPoints == |recent|
            && r.trends == TrendsBetween(recent[0], recent[|recent| - 1])
            && r.summary == TrendSummary(r.trends))
  {
    var recent := InWindow(h, now - windowMinutes * 60);
    if |recent| < 2 then InsufficientData
    else
      var t := TrendsBetween(recent[0], recent[|recent| - 1]);
      Analysis(windowMinutes, |recent|, t, TrendSummary(t))
  }

  /** Each trend is the newest in-window value minus the oldest one, taken
      from entries of the history that lie inside the window. */
  lemma TrendsAreLatestMinusFirst(h: seq<HealthMetrics>, now: int, windowMinutes: int)
    requires Analyse(h, now, windowMinutes).Analysis?
    ensures var t := Analyse(h, now, windowMinutes).trends;
      exists first, latest ::
        && first in h && latest in h
        && first.timestamp >= now - windowMinutes * 60
        && latest.timestamp >= now - windowMinutes * 60
        && t.errorRateTrend == latest.errorRate - first.errorRate
        && t.responseTimeTrend == latest.avgResponseTime - first.avgResponseTime
        && t.fallbackRateTrend == latest.fallbackRate - first.fallbackRate
        && t.requestVolumeTrend == latest.totalRequests - first.totalRequests
  {
    var recent := InWindow(h, now - windowMinutes * 60);
    var first, latest := recent[0], recent[|recent| - 1];
    assert first in h && latest in h;
  }

  /** What `check_health` reports, without the service configuration. */
  datatype Health = Health(timestamp: int, status: Level, metrics: HealthMetrics,
                           alerts: seq<Alert>, thresholds: AlertThresholds)

  class Monitor {
    var thresholds: AlertThresholds
    var metricsHistory: seq<HealthMetrics>

    ghost predicate Valid()
      reads this
    {
      |metricsHistory| <= HistoryLimit
    }

    /** Missing thresholds mean the defaults. */
    constructor(t: Option<AlertThresholds>)
      ensures Valid()
      ensures thresholds == (if t.Some? then t.value else DefaultThresholds)
      ensures metricsHistory == []
    {
      thresholds := if t.Some? then t.value else DefaultThresholds;
      metricsHistory := [];
    }

    /** `collect_metrics`: append the new metrics and keep the last 100. */
    method CollectMetrics(s: ServiceStats, now: int) returns (m: HealthMetrics)
      requires Valid()
      modifies this
      ensures Valid()
      ensures m == Metrics(s, now)
      ensures metricsHistory == Capped(old(metricsHistory) + [m])
      ensures thresholds == old(thresholds)
    {
      m := Metrics(s, now);
      metricsHistory := metricsHistory + [m];
      if |metricsHistory| > HistoryLimit {
        metricsHistory := metricsHistory[|metricsHistory| - HistoryLimit..];
      }
    }

    /** `check_health`: collect, check alerts, pick the overall status. */
    method CheckHealth(s: ServiceStats, now: int) returns (h: Health)
      requires Valid()
      modifies this
      ensures Valid()
      ensures h.metrics == Metrics(s, now) && h.timestamp == now
      ensures h.alerts == CheckAlerts(h.metrics, thresholds)
      ensures h.status == OverallStatus(h.alerts)
      ensures h.thresholds == thresholds == old(thresholds)
      ensures metricsHistory == Capped(old(metricsHistory) + [h.metrics])
    {
      var m := CollectMetrics(s, now);
      var alerts := CheckAlerts(m, thresholds);
      h := Health(m.timestamp, OverallStatus(alerts), m, alerts, thresholds);
    }
  }
}
