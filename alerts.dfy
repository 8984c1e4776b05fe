/**
 * The threshold check of plunk_event_logger: per window at most one alert,
 * critical tested before warning, every comparison strict.
 */
module Alerts {
  import opened Metrics

  const SevenDayWarning: real := 0.05
  const SevenDayCritical: real := 0.075
  const AllTimeWarning: real := 0.04
  const AllTimeCritical: real := 0.06

  datatype Window = SevenDay | AllTime
  datatype Severity = Warning | Critical

  /** One alert line: its tier, its window, the rate observed and the threshold it exceeded. */
  datatype Alert = Alert(severity: Severity, window: Window, rate: real, threshold: real)

  function WarningThreshold(w: Window): real
  {
    if w == SevenDay then SevenDayWarning else AllTimeWarning
  }

  function CriticalThreshold(w: Window): real
  {
    if w == SevenDay then SevenDayCritical else AllTimeCritical
  }

  /** The alert (none or one) that window `w` contributes for `rate`. */
  function WindowAlert(w: Window, rate: real): (r: seq<Alert>)
    ensures |r| <= 1
    ensures r == [] <==> rate <= WarningThreshold(w)
    ensures r != [] ==> r[0].window == w && r[0].rate == rate
    ensures r != [] ==> (r[0].severity == Critical <==> rate > CriticalThreshold(w))
    ensures r != [] ==>
      r[0].threshold == (if r[0].severity == Critical then CriticalThreshold(w) else WarningThreshold(w))
  {
    if rate > CriticalThreshold(w) then [Alert(Critical, w, rate, CriticalThreshold(w))]
    else if rate > WarningThreshold(w) then [Alert(Warning, w, rate, WarningThreshold(w))]
    else []
  }

  /** The alert list of one run: the seven-day alert, if any, then the all-time alert, if any. */
  function AlertsFor(m: BounceMetrics): (r: seq<Alert>)
    ensures |r| <= 2
    ensures forall i, j :: 0 <= i < j < |r| ==> r[i].window == SevenDay && r[j].window == AllTime
    ensures r == [] <==> m.sevenDay.rate <= SevenDayWarning && m.allTime.rate <= AllTimeWarning
  {
    WindowAlert(SevenDay, m.sevenDay.rate) + WindowAlert(AllTime, m.allTime.rate)
  }

  /** Every alert states a rate strictly above the threshold it names, which is its tier's threshold. */
  lemma AlertsExceedThresholds(m: BounceMetrics)
    ensures forall a :: a in AlertsFor(m) ==>
      && a.rate > a.threshold
      && a.rate == (if a.window == SevenDay then m.sevenDay.rate else m.allTime.rate)
      && (a.severity == Critical <==> a.rate > CriticalThreshold(a.window))
      && (a.severity == Warning ==> a.rate <= CriticalThreshold(a.window))
  {
  }

  /** The if/elif chains that append to `alerts`, one window after the other. */
  method CheckThresholds(m: BounceMetrics) returns (alerts: seq<Alert>)
    ensures alerts == AlertsFor(m)
  {
    alerts := [];
    var rateWeek := m.sevenDay.rate;
    if rateWeek > SevenDayCritical {
      alerts := alerts + [Alert(Critical, SevenDay, rateWeek, SevenDayCritical)];
    } else if rateWeek > SevenDayWarning {
      alerts := alerts + [Alert(Warning, SevenDay, rateWeek, SevenDayWarning)];
    }
    var rateAll := m.allTime.rate;
    if rateAll > AllTimeCritical {
      alerts := alerts + [Alert(Critical, AllTime, rateAll, AllTimeCritical)];
    } else if rateAll > AllTimeWarning {
      alerts := alerts + [Alert(Warning, AllTime, rateAll, AllTimeWarning)];
    }
  }

  /** A rate exactly at a threshold does not reach that tier. */
  lemma ThresholdIsExclusive(w: Window)
    ensures WindowAlert(w, WarningThreshold(w)) == []
    ensures |WindowAlert(w, CriticalThreshold(w))| == 1
    ensures WindowAlert(w, CriticalThreshold(w))[0].severity == Warning
  {
  }
}
