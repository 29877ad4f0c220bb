/** The tracking panel's session: when tracking started, how long the
    route was estimated to take, the remaining time and progress the
    panel shows once a second, and the re-estimate from the current
    speed. The figures come from the GPS tracker. */
module TrackingManager {
  import opened Common
  import opened Geo
  import opened GpsTracker

  /** `Math.max(0, estimatedTotalTime - elapsedTime)`. */
  function RemainingTime(estimated: real, elapsed: real): (r: real)
    ensures r >= 0.0 && r >= estimated - elapsed
    ensures r == 0.0 || r == estimated - elapsed
  {
    if estimated - elapsed > 0.0 then estimated - elapsed else 0.0
  }

  /** The remaining time in whole minutes, `Math.round(ms / 60000)`. */
  function RemainingMinutes(remaining: real): (m: nat)
    requires remaining >= 0.0
    ensures m as real - 0.5 <= remaining / 60000.0 < m as real + 0.5
  {
    Round(remaining / 60000.0)
  }

  datatype TimeLabel = HoursMinutes(hours: nat, minutes: nat) | MinutesOnly(minutes: nat)

  /** How the remaining minutes are written: as hours and minutes when
      above an hour, as minutes alone otherwise, so that exactly an hour
      is written "60m". */
  function TimeLabelOf(remainingMinutes: nat): (t: TimeLabel)
    ensures t.HoursMinutes? <==> remainingMinutes > 60
    ensures t.HoursMinutes? ==>
      t.hours >= 1 && t.minutes < 60 && t.hours * 60 + t.minutes == remainingMinutes
    ensures t.MinutesOnly? ==> t.minutes == remainingMinutes
  {
    if remainingMinutes > 60 then HoursMinutes(remainingMinutes / 60, remainingMinutes % 60)
    else MinutesOnly(remainingMinutes)
  }

  /** The label's text, `"{h}h {m}m"` or `"{m}m"`. */
  function LabelText(t: TimeLabel): (s: string)
    ensures |s| >= 2 && s[|s| - 1] == 'm'
  {
    match t
    case HoursMinutes(h, m) => NatToString(h) + "h " + NatToString(m) + "m"
    case MinutesOnly(m) => NatToString(m) + "m"
  }

  /** The colour of the progress circle. */
  datatype Band = Started | HalfWay | NearlyDone

  function BandRank(b: Band): nat {
    match b
    case Started => 0
    case HalfWay => 1
    case NearlyDone => 2
  }

  /** Below 30 percent, below 70 percent, and the rest. */
  function BandOf(progressPercent: real): (b: Band)
    ensures b == Started <==> progressPercent < 30.0
    ensures b == NearlyDone <==> progressPercent >= 70.0
  {
    if progressPercent < 30.0 then Started
    else if progressPercent < 70.0 then HalfWay
    else NearlyDone
  }

  /** More progress never shows an earlier colour. */
  lemma BandMonotone(p: real, q: real)
    requires p <= q
    ensures BandRank(BandOf(p)) <= BandRank(BandOf(q))
  {
  }

  /** The figures `updateTrackingDisplay` hands to the panel. */
  datatype TrackingData = TrackingData(traveledDistance: real, totalDistance: real,
                                       progressPercent: real, remainingTime: real)

  /** What the panel shows: the distances, the time label, the rounded
      percentage and its colour, and whether the route counts as done. */
  datatype TrackingView = TrackingView(traveledDistance: real, totalDistance: real,
                                       time: TimeLabel, percentShown: int, band: Band,
                                       completed: bool)

  /** `updateTrackingUI(data)` without the page: a route counts as done
      at 100 percent or more. */
  function TrackingUi(data: TrackingData): (v: TrackingView)
    requires data.remainingTime >= 0.0
    ensures v.completed <==> data.progressPercent >= 100.0
    ensures v.completed ==> v.band == NearlyDone
    ensures v.time == TimeLabelOf(RemainingMinutes(data.remainingTime))
    ensures v.traveledDistance == data.traveledDistance && v.totalDistance == data.totalDistance
  {
    TrackingView(data.traveledDistance, data.totalDistance,
                 TimeLabelOf(RemainingMinutes(data.remainingTime)),
                 Round(data.progressPercent), BandOf(data.progressPercent),
                 data.progressPercent >= 100.0)
  }

  /** The module's private variables: whether the update interval is set,
      the start time (`null` until tracking starts) and the estimate in
      milliseconds. */
  class TrackingSession {
    var intervalSet: bool
    var startTime: Option<int>
    var estimatedTotalTime: real

    constructor()
      ensures !intervalSet && startTime.None? && estimatedTotalTime == 0.0
    {
      intervalSet, startTime, estimatedTotalTime := false, None, 0.0;
    }

    /** `if (!startTime) return;` reads a start time of 0 as missing. */
    predicate Running()
      reads this
    {
      startTime.Some? && startTime.value != 0
    }

    /** `startTracking(route)`: nothing without a route; otherwise the
        clock starts now, the estimate is the route's time in
        milliseconds and the update interval is set. */
    method StartTracking(route: Option<Route>, now: int)
      modifies this
      ensures route.None? ==>
        intervalSet == old(intervalSet) && startTime == old(startTime)
        && estimatedTotalTime == old(estimatedTotalTime)
      ensures route.Some? ==>
        intervalSet && startTime == Some(now)
        && estimatedTotalTime == route.value.summary.totalTime * 1000.0
    {
      if route.None? {
        return;
      }
      startTime := Some(now);
      estimatedTotalTime := route.value.summary.totalTime * 1000.0;
      intervalSet := true;
    }

    /** `stopTracking()`: the interval is cleared and the session reset. */
    method StopTracking()
      modifies this
      ensures !intervalSet && startTime.None? && estimatedTotalTime == 0.0
      ensures !Running()
    {
      intervalSet := false;
      startTime := None;
      estimatedTotalTime := 0.0;
    }

    /** `updateTrackingUI(data)`: the view, and a completed route stops
        tracking. */
    method UpdateTrackingUi(data: TrackingData) returns (view: TrackingView)
      requires data.remainingTime >= 0.0
      modifies this
      ensures view == TrackingUi(data)
      ensures view.completed ==> !intervalSet && startTime.None? && estimatedTotalTime == 0.0
      ensures !view.completed ==>
        intervalSet == old(intervalSet) && startTime == old(startTime)
        && estimatedTotalTime == old(estimatedTotalTime)
    {
      view := TrackingUi(data);
      if data.progressPercent >= 100.0 {
        StopTracking();
      }
    }

    /** `updateTrackingDisplay()` at time `now`: nothing before tracking
        starts; otherwise the remaining time never below 0, and the
        tracker's figures, a missing tracker reading as 0 travelled, a
        total of 1 and 0 percent (as does a total of 0, through `|| 1`).
        The tracker's own completion percentage is always 0, so its
        figures never complete the route. */
    method UpdateTrackingDisplay(now: int, gps: Tracker?) returns (view: Option<TrackingView>)
      modifies this
      ensures !old(Running()) ==>
        view.None? && intervalSet == old(intervalSet) && startTime == old(startTime)
        && estimatedTotalTime == old(estimatedTotalTime)
      ensures old(Running()) ==>
        view.Some? && view.value.time == TimeLabelOf(RemainingMinutes(
          RemainingTime(old(estimatedTotalTime), (now - old(startTime).value) as real)))
      ensures view.Some? && gps == null ==>
        view.value.traveledDistance == 0.0 && view.value.totalDistance == 1.0 && !view.value.completed
      ensures view.Some? && gps != null && gps.Valid() ==>
        view.value.totalDistance == 1.0 && !view.value.completed
        && intervalSet == old(intervalSet) && startTime == old(startTime)
        && estimatedTotalTime == old(estimatedTotalTime)
    {
      if !Running() {
        return None;
      }
      var elapsedTime := (now - startTime.value) as real;
      var remainingTime := RemainingTime(estimatedTotalTime, elapsedTime);
      var traveledDistance := if gps == null then 0.0 else gps.traveledDistance;
      var totalDistance := if gps == null || gps.totalRouteDistance == 0.0 then 1.0 else gps.totalRouteDistance;
      var progressPercent := if gps == null then 0.0 else gps.GetCompletionPercentage();
      var v := UpdateTrackingUi(TrackingData(traveledDistance, totalDistance, progressPercent, remainingTime));
      view := Some(v);
    }

    /** `Date.now() - startTime`, where a `null` start counts as 0. */
    function Elapsed(now: int): int
      reads this
    {
      now - if startTime.Some? then startTime.value else 0
    }

    /** `updateEstimatedTime(currentSpeed)`: with an estimate, a positive
        speed and distance still to go, the estimate becomes the time
        elapsed plus that distance at the current speed. The distance to
        go is the tracker's total minus what it travelled (NaN without a
        tracker). The tracker's total is always 0, so with a tracker the
        estimate never changes. */
    method UpdateEstimatedTime(currentSpeed: real, now: int, gps: Tracker?)
      modifies this
      ensures intervalSet == old(intervalSet) && startTime == old(startTime)
      ensures old(estimatedTotalTime) == 0.0 || currentSpeed <= 0.0 || gps == null ==>
        estimatedTotalTime == old(estimatedTotalTime)
      ensures old(estimatedTotalTime) != 0.0 && currentSpeed > 0.0 && gps != null ==>
        var remainingDistance := gps.totalRouteDistance - gps.traveledDistance;
        estimatedTotalTime == if remainingDistance > 0.0
          then old(Elapsed(now)) as real + remainingDistance / currentSpeed * 1000.0
          else old(estimatedTotalTime)
      ensures gps != null && gps.Valid() ==> estimatedTotalTime == old(estimatedTotalTime)
    {
      if estimatedTotalTime == 0.0 || currentSpeed <= 0.0 {
        return;
      }
      var remainingDistance: Option<real> :=
        if gps == null then None else Some(gps.totalRouteDistance - gps.traveledDistance);
      if remainingDistance.Some? && remainingDistance.value > 0.0 {
        var newRemainingTime := remainingDistance.value / currentSpeed * 1000.0;
        estimatedTotalTime := Elapsed(now) as real + newRemainingTime;
      }
    }
  }
}
