/** The GPS tracker: a trail of the last 100 positions, the distance
    travelled along it, a signal-strength grade from the reported accuracy,
    a check of how far the position is from the current route, a 1 Hz
    throttle on position updates, and the reset when tracking stops. The
    map, the markers, the geolocation API and the notifications are not
    modelled; the clock is a parameter `now` (milliseconds) and distance is
    the abstract `Distance` function. */
module GpsTracker {
  import opened Common
  import opened Geo
  import opened StateManager
  import opened OfflineManager

  const BreadcrumbCapacity: nat := 100
  /** Every fifth route coordinate is compared with the position. */
  const DeviationStride: nat := 5
  /** Metres from the route beyond which the user is warned. */
  const DeviationThreshold: real := 100.0
  /** Milliseconds that must have passed since the last processed fix. */
  const ThrottleMs: int := 1000

  // ---------------------------------------------------------------------
  // Signal strength

  /** 5 for accuracy under 10 m, then 4, 3, 2 under 25, 50 and 100 m, else 1. */
  function SignalStrength(accuracy: real): (s: int)
    ensures 1 <= s <= 5
    ensures s == 5 <==> accuracy < 10.0
    ensures s == 1 <==> accuracy >= 100.0
  {
    if accuracy < 10.0 then 5
    else if accuracy < 25.0 then 4
    else if accuracy < 50.0 then 3
    else if accuracy < 100.0 then 2
    else 1
  }

  /** A less accurate fix never gets a better grade. */
  lemma SignalMonotone(a: real, b: real)
    requires a <= b
    ensures SignalStrength(b) <= SignalStrength(a)
  {
  }

  // ---------------------------------------------------------------------
  // Route deviation

  /** A distance that may still be the initial `Infinity`. */
  datatype ExtReal = Finite(v: real) | Infinity

  predicate Exceeds(e: ExtReal, t: real) {
    e.Infinity? || e.v > t
  }

  /** One step of the minimum: a strictly smaller distance replaces it. */
  function MinStep(m: ExtReal, d: real): (r: ExtReal)
    ensures r.Finite?
    ensures !Exceeds(r, d) && (m.Finite? ==> r.v <= m.v)
    ensures r == m || r == Finite(d)
  {
    if m.Infinity? || d < m.v then Finite(d) else m
  }

  /** The running minimum over the coordinates at `i`, `i + 5`, ... */
  function SampledMin(coords: seq<Point>, i: nat, acc: ExtReal, pos: Point, dist: Distance): ExtReal
    decreases |coords| - i
  {
    if i >= |coords| then acc
    else SampledMin(coords, i + DeviationStride, MinStep(acc, dist(coords[i], pos)), pos, dist)
  }

  /** The minimum exceeds `t` exactly when the start value does and every
      sampled coordinate is farther than `t` from the position. */
  lemma {:induction false} SampledMinExceeds(coords: seq<Point>, i: nat, acc: ExtReal, pos: Point,
                                            dist: Distance, t: real)
    ensures Exceeds(SampledMin(coords, i, acc, pos, dist), t) <==>
      Exceeds(acc, t)
      && forall k :: i <= k < |coords| && (k - i) % DeviationStride == 0 ==> dist(coords[k], pos) > t
    decreases |coords| - i
  {
    if i < |coords| {
      var next := MinStep(acc, dist(coords[i], pos));
      SampledMinExceeds(coords, i + DeviationStride, next, pos, dist, t);
      assert Exceeds(next, t) <==> Exceeds(acc, t) && dist(coords[i], pos) > t;
    }
  }

  /** Without coordinates the minimum stays `Infinity`. */
  lemma SampledMinEmpty(acc: ExtReal, pos: Point, dist: Distance)
    ensures SampledMin([], 0, acc, pos, dist) == acc
  {
  }

  /** Every fifth coordinate, from the first, is more than 100 m away. */
  predicate FarFromRoute(coords: seq<Point>, pos: Point, dist: Distance) {
    forall k :: 0 <= k < |coords| && k % DeviationStride == 0 ==> dist(coords[k], pos) > DeviationThreshold
  }

  datatype Deviation =
    | NotChecked
    | OnRoute(minDistance: ExtReal)
    /** The warning; `spoken` when voice guidance is on. */
    | Deviated(minDistance: ExtReal, spoken: bool)

  /** `checkRouteDeviation`: nothing without a current route; otherwise the
      minimum distance over every fifth coordinate, and a warning when it
      exceeds 100 m, which includes a route without coordinates. */
  method CheckRouteDeviation(route: Option<Route>, pos: Point, dist: Distance, vozActiva: bool)
    returns (d: Deviation)
    ensures d.NotChecked? <==> route.None?
    ensures route.Some? ==> d.minDistance == SampledMin(route.value.coordinates, 0, Infinity, pos, dist)
    ensures d.Deviated? <==> (route.Some? && FarFromRoute(route.value.coordinates, pos, dist))
    ensures d.Deviated? ==> d.spoken == vozActiva
  {
    if route.None? {
      return NotChecked;
    }
    var coords := route.value.coordinates;
    var minDistance := Infinity;
    var i := 0;
    while i < |coords|
      invariant SampledMin(coords, i, minDistance, pos, dist) == SampledMin(coords, 0, Infinity, pos, dist)
      decreases |coords| - i
    {
      var distance := dist(coords[i], pos);
      if minDistance.Infinity? || distance < minDistance.v {
        minDistance := Finite(distance);
      }
      i := i + DeviationStride;
    }
    SampledMinExceeds(coords, 0, Infinity, pos, dist, DeviationThreshold);
    if Exceeds(minDistance, DeviationThreshold) {
      d := Deviated(minDistance, vozActiva);
    } else {
      d := OnRoute(minDistance);
    }
  }

  /** What `updateRouteTracking` got to: nothing without a route, the
      exception of the progress display, or the deviation check. */
  datatype Tracking =
    | NoRoute
    | ProgressFailed
    | Checked(deviation: Deviation)

  /** The outcome of route tracking: no route exactly without one; with
      one, the progress display's exception exactly when the display is
      loaded, and otherwise the deviation check's verdict on every fifth
      coordinate. */
  predicate TrackingOf(route: Option<Route>, pos: Point, dist: Distance, vozActiva: bool,
                       progressDisplay: bool, t: Tracking)
  {
    match t
    case NoRoute => route.None?
    case ProgressFailed => route.Some? && progressDisplay
    case Checked(d) =>
      route.Some? && !progressDisplay && !d.NotChecked?
      && d.minDistance == SampledMin(route.value.coordinates, 0, Infinity, pos, dist)
      && (d.Deviated? <==> FarFromRoute(route.value.coordinates, pos, dist))
      && (d.Deviated? ==> d.spoken == vozActiva)
  }

  /** With the progress display loaded, tracking along a route never gets
      to warn about a deviation, however far the position is. */
  lemma ProgressDisplayHidesDeviation(route: Route, pos: Point, dist: Distance, vozActiva: bool, t: Tracking)
    requires TrackingOf(Some(route), pos, dist, vozActiva, true, t)
    requires FarFromRoute(route.coordinates, pos, dist)
    ensures t == ProgressFailed
  { }

  // ---------------------------------------------------------------------
  // The tracker's state

  class Tracker {
    var breadcrumbs: seq<Point>
    var traveledDistance: real
    var totalRouteDistance: real
    var isActive: bool
    var gpsCentered: bool
    var gpsSignalStrength: int
    var lastUpdateTime: int
    var lastPosition: Option<Point>
    /** The accuracy of the last fix, kept for the trail saved on stop. */
    var accuracy: real

    /** The trail is bounded, the distance travelled is never negative,
        the grade is in 1..5, and the total route distance is only ever
        set to 0. */
    predicate Valid()
      reads this
    {
      |breadcrumbs| <= BreadcrumbCapacity && traveledDistance >= 0.0
      && totalRouteDistance == 0.0 && 1 <= gpsSignalStrength <= 5
    }

    /** The module's initial values; `now` is the load time. */
    constructor(now: int)
      ensures Valid()
      ensures breadcrumbs == [] && traveledDistance == 0.0 && !isActive && !gpsCentered
      ensures gpsSignalStrength == 1 && lastUpdateTime == now && lastPosition.None?
    {
      breadcrumbs := [];
      traveledDistance := 0.0;
      totalRouteDistance := 0.0;
      isActive := false;
      gpsCentered := false;
      gpsSignalStrength := 1;
      lastUpdateTime := now;
      lastPosition := None;
      accuracy := 0.0;
    }

    /** `calculateSignalStrength`: the grade is stored and returned. */
    method CalculateSignalStrength(acc: real) returns (s: int)
      requires Valid()
      modifies this
      ensures Valid()
      ensures s == SignalStrength(acc) && gpsSignalStrength == s
      ensures breadcrumbs == old(breadcrumbs) && traveledDistance == old(traveledDistance)
      ensures isActive == old(isActive) && gpsCentered == old(gpsCentered)
      ensures lastUpdateTime == old(lastUpdateTime) && lastPosition == old(lastPosition)
      ensures accuracy == old(accuracy)
    {
      if acc < 10.0 {
        gpsSignalStrength := 5;
      } else if acc < 25.0 {
        gpsSignalStrength := 4;
      } else if acc < 50.0 {
        gpsSignalStrength := 3;
      } else if acc < 100.0 {
        gpsSignalStrength := 2;
      } else {
        gpsSignalStrength := 1;
      }
      s := gpsSignalStrength;
    }

    /** `updateBreadcrumbs`: the position is appended and, past 100
        entries, the oldest is dropped. */
    method UpdateBreadcrumbs(position: Point)
      requires Valid()
      modifies this
      ensures Valid()
      ensures breadcrumbs == LastN(old(breadcrumbs) + [position], BreadcrumbCapacity)
      ensures traveledDistance == old(traveledDistance) && gpsSignalStrength == old(gpsSignalStrength)
      ensures isActive == old(isActive) && gpsCentered == old(gpsCentered)
      ensures lastUpdateTime == old(lastUpdateTime) && lastPosition == old(lastPosition)
      ensures accuracy == old(accuracy)
    {
      breadcrumbs := breadcrumbs + [position];
      if |breadcrumbs| > BreadcrumbCapacity {
        breadcrumbs := breadcrumbs[1..];
      }
    }

    /** `calculateTraveledDistance`: with at least two breadcrumbs, the
        distance from the one before the last to the position is added. */
    method CalculateTraveledDistance(current: Point, dist: Distance)
      requires Valid()
      modifies this
      ensures Valid()
      ensures traveledDistance >= old(traveledDistance)
      ensures traveledDistance == old(traveledDistance)
        + (if |breadcrumbs| > 1 then dist(current, breadcrumbs[|breadcrumbs| - 2]) as real else 0.0)
      ensures breadcrumbs == old(breadcrumbs) && gpsSignalStrength == old(gpsSignalStrength)
      ensures isActive == old(isActive) && gpsCentered == old(gpsCentered)
      ensures lastUpdateTime == old(lastUpdateTime) && lastPosition == old(lastPosition)
      ensures accuracy == old(accuracy)
    {
      if |breadcrumbs| > 1 {
        var lastPoint := breadcrumbs[|breadcrumbs| - 2];
        traveledDistance := traveledDistance + dist(current, lastPoint);
      }
    }

    /** `updateRouteTracking`: without a current route nothing happens.
        Otherwise the position joins the trail and the distance from the
        previous breadcrumb is added to the distance travelled. Then
        `updateProgressUI` hands two numbers to the progress display,
        which reads a route summary from its argument and throws when it
        is loaded (`progressDisplay`): the deviation check is reached only
        without that display. */
    method UpdateRouteTracking(app: State, pos: Point, dist: Distance, progressDisplay: bool)
      returns (t: Tracking)
      requires Valid()
      modifies this
      ensures Valid()
      ensures CurrentRouteOf(app).None? ==>
        breadcrumbs == old(breadcrumbs) && traveledDistance == old(traveledDistance)
      ensures CurrentRouteOf(app).Some? ==>
        breadcrumbs == LastN(old(breadcrumbs) + [pos], BreadcrumbCapacity)
        && traveledDistance == old(traveledDistance)
           + (if old(breadcrumbs) != [] then dist(pos, old(breadcrumbs)[|old(breadcrumbs)| - 1]) as real else 0.0)
      ensures TrackingOf(CurrentRouteOf(app), pos, dist, FlagOf(app, VozActiva), progressDisplay, t)
      ensures gpsSignalStrength == old(gpsSignalStrength)
      ensures isActive == old(isActive) && gpsCentered == old(gpsCentered)
      ensures lastUpdateTime == old(lastUpdateTime) && lastPosition == old(lastPosition)
      ensures accuracy == old(accuracy)
    {
      var currentRoute := CurrentRouteOf(app);
      if currentRoute.None? {
        return NoRoute;
      }
      UpdateBreadcrumbs(pos);
      CalculateTraveledDistance(pos, dist);
      if progressDisplay {
        return ProgressFailed;
      }
      var dev := CheckRouteDeviation(currentRoute, pos, dist, FlagOf(app, VozActiva));
      t := Checked(dev);
    }

    /** `handleLocationSuccess` for a fix after the first: without a map
        nothing happens. Otherwise the fix is graded and cached offline, it
        becomes the last position, the tracker is centred and active, and
        the route tracking runs. */
    method HandleLocationSuccess(reading: GpsReading, now: int, hasMap: bool, app: State,
                                 dist: Distance, offline: OfflineCache?, storageFails: bool,
                                 progressDisplay: bool)
      returns (t: Option<Tracking>)
      requires Valid()
      modifies this, offline
      ensures Valid()
      ensures t.None? <==> !hasMap
      ensures !hasMap ==>
        breadcrumbs == old(breadcrumbs) && traveledDistance == old(traveledDistance)
        && gpsSignalStrength == old(gpsSignalStrength) && accuracy == old(accuracy)
        && isActive == old(isActive) && gpsCentered == old(gpsCentered)
        && lastUpdateTime == old(lastUpdateTime) && lastPosition == old(lastPosition)
      ensures !hasMap && offline != null ==>
        offline.gpsCache == old(offline.gpsCache) && offline.storage == old(offline.storage)
      ensures hasMap ==>
        gpsSignalStrength == SignalStrength(reading.accuracy) && accuracy == reading.accuracy
        && lastPosition == Some(Point(reading.latitude, reading.longitude))
        && lastUpdateTime == now && isActive && gpsCentered
      ensures hasMap && offline != null ==>
        offline.gpsCache == LastN(old(offline.gpsCache) + [FixOf(reading, now)], TrailCapacity)
        && offline.storage == (if storageFails then old(offline.storage)
                               else old(offline.storage)[TrailKey := Trail(offline.gpsCache)])
      ensures hasMap && CurrentRouteOf(app).None? ==>
        breadcrumbs == old(breadcrumbs) && traveledDistance == old(traveledDistance)
      ensures hasMap && CurrentRouteOf(app).Some? ==>
        breadcrumbs == LastN(old(breadcrumbs) + [Point(reading.latitude, reading.longitude)], BreadcrumbCapacity)
        && traveledDistance == old(traveledDistance)
           + (if old(breadcrumbs) != [] then dist(Point(reading.latitude, reading.longitude),
                                                  old(breadcrumbs)[|old(breadcrumbs)| - 1]) as real
              else 0.0)
      ensures hasMap ==>
        TrackingOf(CurrentRouteOf(app), Point(reading.latitude, reading.longitude), dist,
                   FlagOf(app, VozActiva), progressDisplay, t.value)
      ensures offline != null ==>
        offline.routeCache == old(offline.routeCache) && offline.cacheAvailable == old(offline.cacheAvailable)
    {
      if !hasMap {
        return None;
      }
      var latlng := RecordFix(reading, now, offline, storageFails);
      var tracked := UpdateRouteTracking(app, latlng, dist, progressDisplay);
      t := Some(tracked);
    }

    /** The part of `handleLocationSuccess` before the route tracking, once
        a map exists: the fix is graded and cached offline, it becomes the
        last position, and the tracker is centred and active. */
    method RecordFix(reading: GpsReading, now: int, offline: OfflineCache?, storageFails: bool)
      returns (latlng: Point)
      requires Valid()
      modifies this, offline
      ensures Valid()
      ensures latlng == Point(reading.latitude, reading.longitude)
      ensures gpsSignalStrength == SignalStrength(reading.accuracy) && accuracy == reading.accuracy
      ensures offline != null ==>
        offline.gpsCache == LastN(old(offline.gpsCache) + [FixOf(reading, now)], TrailCapacity)
        && offline.storage == (if storageFails then old(offline.storage)
                               else old(offline.storage)[TrailKey := Trail(offline.gpsCache)])
      ensures lastPosition == Some(latlng) && lastUpdateTime == now && isActive && gpsCentered
      ensures breadcrumbs == old(breadcrumbs) && traveledDistance == old(traveledDistance)
      ensures offline != null ==>
        offline.routeCache == old(offline.routeCache) && offline.cacheAvailable == old(offline.cacheAvailable)
    {
      latlng := Point(reading.latitude, reading.longitude);
      accuracy := reading.accuracy;
      var _ := CalculateSignalStrength(reading.accuracy);
      if offline != null {
        var _ := offline.CacheGPSPosition(reading, now, storageFails);
      }
      lastPosition := Some(latlng);
      lastUpdateTime := now;
      gpsCentered := true;
      isActive := true;
    }

    /** The `watchPosition` callback: a fix is processed only when more
        than 1000 ms have passed since the last processed one; its time is
        then recorded and it is handled as by `handleLocationSuccess`. */
    method OnWatchPosition(reading: GpsReading, now: int, hasMap: bool, app: State,
                           dist: Distance, offline: OfflineCache?, storageFails: bool,
                           progressDisplay: bool)
      returns (processed: bool, t: Option<Tracking>)
      requires Valid()
      modifies this, offline
      ensures Valid()
      ensures processed <==> now - old(lastUpdateTime) > ThrottleMs
      ensures lastUpdateTime == (if processed then now else old(lastUpdateTime))
      ensures t.None? <==> !(processed && hasMap)
      ensures !(processed && hasMap) ==>
        breadcrumbs == old(breadcrumbs) && traveledDistance == old(traveledDistance)
        && gpsSignalStrength == old(gpsSignalStrength) && accuracy == old(accuracy)
        && isActive == old(isActive) && gpsCentered == old(gpsCentered)
        && lastPosition == old(lastPosition)
      ensures !(processed && hasMap) && offline != null ==>
        offline.gpsCache == old(offline.gpsCache) && offline.storage == old(offline.storage)
      ensures processed && hasMap ==>
        gpsSignalStrength == SignalStrength(reading.accuracy) && accuracy == reading.accuracy
        && lastPosition == Some(Point(reading.latitude, reading.longitude))
        && isActive && gpsCentered
      ensures processed && hasMap && offline != null ==>
        offline.gpsCache == LastN(old(offline.gpsCache) + [FixOf(reading, now)], TrailCapacity)
        && offline.storage == (if storageFails then old(offline.storage)
                               else old(offline.storage)[TrailKey := Trail(offline.gpsCache)])
      ensures processed && hasMap && CurrentRouteOf(app).None? ==>
        breadcrumbs == old(breadcrumbs) && traveledDistance == old(traveledDistance)
      ensures processed && hasMap && CurrentRouteOf(app).Some? ==>
        breadcrumbs == LastN(old(breadcrumbs) + [Point(reading.latitude, reading.longitude)], BreadcrumbCapacity)
        && traveledDistance == old(traveledDistance)
           + (if old(breadcrumbs) != [] then dist(Point(reading.latitude, reading.longitude),
                                                  old(breadcrumbs)[|old(breadcrumbs)| - 1]) as real
              else 0.0)
      ensures processed && hasMap ==>
        TrackingOf(CurrentRouteOf(app), Point(reading.latitude, reading.longitude), dist,
                   FlagOf(app, VozActiva), progressDisplay, t.value)
      ensures offline != null ==>
        offline.routeCache == old(offline.routeCache) && offline.cacheAvailable == old(offline.cacheAvailable)
    {
      if now - lastUpdateTime > ThrottleMs {
        // The time is stamped before the fix is handled; the handler never
        // reads it, so stamping it afterwards leaves the same state.
        t := HandleLocationSuccess(reading, now, hasMap, app, dist, offline, storageFails, progressDisplay);
        lastUpdateTime := now;
        processed := true;
      } else {
        processed, t := false, None;
      }
    }

    /** `stopGPS`: the newest breadcrumb, if any, is saved to the offline
        trail; then the trail, the distances, the grade and the flags are
        reset and the app state is told GPS is off. */
    method StopGPS(now: int, offline: OfflineCache?, store: Store, storageFails: bool)
      returns (notified: seq<Notification>)
      requires Valid()
      modifies this, offline, store
      ensures Valid()
      ensures breadcrumbs == [] && traveledDistance == 0.0 && totalRouteDistance == 0.0
      ensures !isActive && !gpsCentered && gpsSignalStrength == 1 && lastPosition.None?
      ensures lastUpdateTime == old(lastUpdateTime) && accuracy == old(accuracy)
      ensures offline != null && old(breadcrumbs) != [] ==>
        var last := old(breadcrumbs)[|old(breadcrumbs)| - 1];
        offline.gpsCache == LastN(old(offline.gpsCache) + [GpsFix(last.lat, last.lng, old(accuracy), now)], TrailCapacity)
        && offline.storage == (if storageFails then old(offline.storage)
                               else old(offline.storage)[TrailKey := Trail(offline.gpsCache)])
      ensures offline != null && old(breadcrumbs) == [] ==>
        offline.gpsCache == old(offline.gpsCache) && offline.storage == old(offline.storage)
      ensures offline != null ==>
        offline.routeCache == old(offline.routeCache) && offline.cacheAvailable == old(offline.cacheAvailable)
      ensures store.state == old(store.state) + map[GpsActivo := FlagVal(false)]
      ensures store.listeners == old(store.listeners)
      ensures notified == Notify(store.listeners, store.state, Some(old(store.state)))
    {
      if |breadcrumbs| > 0 && offline != null {
        var last := breadcrumbs[|breadcrumbs| - 1];
        var _ := offline.CacheGPSPosition(GpsReading(last.lat, last.lng, accuracy, Some(now)), now, storageFails);
      }
      gpsCentered := false;
      isActive := false;
      breadcrumbs := [];
      lastPosition := None;
      totalRouteDistance := 0.0;
      traveledDistance := 0.0;
      gpsSignalStrength := 1;
      notified := store.Set(map[GpsActivo := FlagVal(false)]);
    }

    /** `getCompletionPercentage`: 0 when the total route distance is 0,
        which it always is. */
    function GetCompletionPercentage(): (r: real)
      reads this
      ensures Valid() ==> r == 0.0
    {
      if totalRouteDistance == 0.0 then 0.0 else traveledDistance / totalRouteDistance * 100.0
    }
  }
}
