/** Route requests and the route list: which routes cross a blocked
    hacienda (tested on every fifth coordinate against the haciendas'
    bounds), the check that neither end point lies in one, the choice of
    the first unblocked route when routes arrive, and the cycling to the
    next unblocked alternative. */
module RouteCalculator {
  import opened Common
  import opened Geo
  import opened SearchManager
  import opened StateManager

  /** Only coordinates at indices 0, 5, 10, ... are tested. */
  const SampleStride: nat := 5

  // ---------------------------------------------------------------------
  // Blocked zones

  predicate ZoneBlocks(z: Zone, blocked: seq<string>, p: Point) {
    GetNombre(z.feature) in blocked && InBox(z.bounds, p)
  }

  /** Some hacienda whose name is blocked has `p` inside its bounds (the
      scan over the layers, one at a time). */
  predicate PointBlocked(zones: seq<Zone>, blocked: seq<string>, p: Point) {
    zones != [] && (ZoneBlocks(zones[0], blocked, p) || PointBlocked(zones[1..], blocked, p))
  }

  lemma {:induction false} PointBlockedIff(zones: seq<Zone>, blocked: seq<string>, p: Point)
    ensures PointBlocked(zones, blocked, p) <==>
      exists i :: 0 <= i < |zones| && ZoneBlocks(zones[i], blocked, p)
  {
    if zones != [] {
      PointBlockedIff(zones[1..], blocked, p);
      if exists i :: 0 <= i < |zones| && ZoneBlocks(zones[i], blocked, p) {
        var i :| 0 <= i < |zones| && ZoneBlocks(zones[i], blocked, p);
        if i > 0 { assert zones[1..][i - 1] == zones[i]; }
      }
      if PointBlocked(zones[1..], blocked, p) {
        var i :| 0 <= i < |zones[1..]| && ZoneBlocks(zones[1..][i], blocked, p);
        assert zones[i + 1] == zones[1..][i];
      }
    }
  }

  /** With nothing blocked no point is. */
  lemma {:induction false} NothingBlocked(zones: seq<Zone>, p: Point)
    ensures !PointBlocked(zones, [], p)
  {
    if zones != [] {
      NothingBlocked(zones[1..], p);
    }
  }

  /** The sampled scan from index `i` on. */
  function SampledBlocked(coords: seq<Point>, i: nat, zones: seq<Zone>, blocked: seq<string>): bool
    decreases |coords| - i
  {
    if i >= |coords| then false
    else PointBlocked(zones, blocked, coords[i]) || SampledBlocked(coords, i + SampleStride, zones, blocked)
  }

  /** `rutaPasaPorBloqueada`: false without a hacienda layer or with
      nothing blocked, otherwise whether a sampled coordinate is blocked. */
  function RutaPasaPorBloqueada(route: Route, layer: Option<seq<Zone>>, blocked: seq<string>): bool {
    if layer.None? || |blocked| == 0 then false
    else SampledBlocked(route.coordinates, 0, layer.value, blocked)
  }

  function Blocker(layer: Option<seq<Zone>>, blocked: seq<string>): Route -> bool {
    r => RutaPasaPorBloqueada(r, layer, blocked)
  }

  lemma {:induction false} SampledBlockedIff(coords: seq<Point>, i: nat, zones: seq<Zone>, blocked: seq<string>)
    requires i % SampleStride == 0
    ensures SampledBlocked(coords, i, zones, blocked) <==>
      exists k :: i <= k < |coords| && k % SampleStride == 0 && PointBlocked(zones, blocked, coords[k])
    decreases |coords| - i
  {
    if i < |coords| {
      SampledBlockedIff(coords, i + SampleStride, zones, blocked);
      if SampledBlocked(coords, i, zones, blocked) && !PointBlocked(zones, blocked, coords[i]) {
        var k :| i + SampleStride <= k < |coords| && k % SampleStride == 0 && PointBlocked(zones, blocked, coords[k]);
        assert i <= k;
      }
      if exists k :: i <= k < |coords| && k % SampleStride == 0 && PointBlocked(zones, blocked, coords[k]) {
        var k :| i <= k < |coords| && k % SampleStride == 0 && PointBlocked(zones, blocked, coords[k]);
        if k != i {
          assert i + SampleStride <= k;
        }
      }
    }
  }

  /** A route crosses a blocked zone exactly when one of its coordinates at
      an index divisible by five lies in the bounds of a blocked hacienda;
      without a layer it never does. */
  lemma RutaPasaPorBloqueadaIff(route: Route, layer: Option<seq<Zone>>, blocked: seq<string>)
    ensures layer.None? || blocked == [] ==> !RutaPasaPorBloqueada(route, layer, blocked)
    ensures layer.Some? ==> (RutaPasaPorBloqueada(route, layer, blocked) <==>
      exists k :: 0 <= k < |route.coordinates| && k % SampleStride == 0
        && PointBlocked(layer.value, blocked, route.coordinates[k]))
  {
    if layer.Some? {
      SampledBlockedIff(route.coordinates, 0, layer.value, blocked);
      if blocked == [] {
        forall k | 0 <= k < |route.coordinates| ensures !PointBlocked(layer.value, blocked, route.coordinates[k]) {
          NothingBlocked(layer.value, route.coordinates[k]);
        }
      }
    }
  }

  /** Points between samples are never looked at: two routes whose
      coordinates agree at the sampled indices are judged alike. */
  lemma SamplesDecide(a: Route, b: Route, layer: Option<seq<Zone>>, blocked: seq<string>)
    requires |a.coordinates| == |b.coordinates|
    requires forall k :: 0 <= k < |a.coordinates| && k % SampleStride == 0 ==>
      a.coordinates[k] == b.coordinates[k]
    ensures RutaPasaPorBloqueada(a, layer, blocked) == RutaPasaPorBloqueada(b, layer, blocked)
  {
    RutaPasaPorBloqueadaIff(a, layer, blocked);
    RutaPasaPorBloqueadaIff(b, layer, blocked);
  }

  // ---------------------------------------------------------------------
  // End points

  /** The last hacienda in layer order that blocks `p`, as the scan keeps
      overwriting the name it found. */
  function LastBlocking(zones: seq<Zone>, blocked: seq<string>, p: Point): (r: Option<string>)
    ensures r.Some? <==> PointBlocked(zones, blocked, p)
    ensures r.Some? ==> exists i ::
      0 <= i < |zones| && ZoneBlocks(zones[i], blocked, p) && r.value == GetNombre(zones[i].feature)
      && forall k :: i < k < |zones| ==> !ZoneBlocks(zones[k], blocked, p)
  {
    if zones == [] then None
    else
      var rest := LastBlocking(zones[1..], blocked, p);
      if rest.Some? then
        var i :| 0 <= i < |zones[1..]| && ZoneBlocks(zones[1..][i], blocked, p)
          && rest.value == GetNombre(zones[1..][i].feature)
          && forall k :: i < k < |zones[1..]| ==> !ZoneBlocks(zones[1..][k], blocked, p);
        assert zones[i + 1] == zones[1..][i];
        assert forall k :: i + 1 < k < |zones| ==> zones[k] == zones[1..][k - 1];
        rest
      else if ZoneBlocks(zones[0], blocked, p) then
        PointBlockedIff(zones[1..], blocked, p);
        assert forall k :: 0 < k < |zones| ==> zones[k] == zones[1..][k - 1];
        Some(GetNombre(zones[0].feature))
      else None
  }

  datatype Validation = Valid | Rejected(origen: Option<string>, dest: Option<string>)

  /** `validarBloqueoOrigenDestino`: valid without a layer or with nothing
      blocked; otherwise rejected, naming the blocking hacienda of each end,
      when either end lies in a blocked hacienda. */
  function ValidarBloqueoOrigenDestino(origen: Point, dest: Point, layer: Option<seq<Zone>>,
                                       blocked: seq<string>): (v: Validation)
    ensures layer.None? || blocked == [] ==> v == Valid
    ensures layer.Some? ==> (v == Valid <==>
      !PointBlocked(layer.value, blocked, origen) && !PointBlocked(layer.value, blocked, dest))
    ensures v.Rejected? ==>
      (v.origen.Some? <==> PointBlocked(layer.value, blocked, origen))
      && (v.dest.Some? <==> PointBlocked(layer.value, blocked, dest))
  {
    if layer.None? || |blocked| == 0 then
      if layer.Some? then
        NothingBlocked(layer.value, origen);
        NothingBlocked(layer.value, dest);
        Valid
      else Valid
    else
      var o := LastBlocking(layer.value, blocked, origen);
      var d := LastBlocking(layer.value, blocked, dest);
      if o.Some? || d.Some? then Rejected(o, d) else Valid
  }

  const RejectPrefix := "No se puede calcular ruta: "

  /** The error message of a rejection. */
  function RejectionMessage(v: Validation): (m: string)
    requires v.Rejected? && (v.origen.Some? || v.dest.Some?)
    ensures StartsWith(m, RejectPrefix)
  {
    RejectPrefix +
    (if v.origen.Some? && v.dest.Some? then
       "origen (" + v.origen.value + ") y destino (" + v.dest.value + ") en zonas bloqueadas"
     else if v.origen.Some? then "origen (" + v.origen.value + ") en zona bloqueada"
     else "destino (" + v.dest.value + ") en zona bloqueada")
  }

  // ---------------------------------------------------------------------
  // Requests

  /** Origin, the stopover when set, destination. */
  function Waypoints(p: Slots): (w: seq<Point>)
    requires p.origen.Some? && p.dest.Some?
    ensures |w| == p.Filled() && 2 <= |w| <= 3
    ensures w[0] == p.origen.value && w[|w| - 1] == p.dest.value
    ensures |w| == 3 <==> p.inter.Some?
    ensures |w| == 3 ==> w[1] == p.inter.value
  {
    [p.origen.value] + (if p.inter.Some? then [p.inter.value] else []) + [p.dest.value]
  }

  /** What `calcularRuta` ends with. `NoMap` is reached after the loading
      indicator is shown, which then stays on. */
  datatype CalcOutcome =
    | MissingOrigin
    | MissingDest
    | EndpointRejected(v: Validation)
    | NoMap
    | Requested(waypoints: seq<Point>)

  function CalcularRuta(p: Slots, layer: Option<seq<Zone>>, blocked: seq<string>, hasMap: bool): (o: CalcOutcome)
    ensures o == MissingOrigin <==> p.origen.None?
    ensures o == MissingDest <==> p.origen.Some? && p.dest.None?
    ensures o.EndpointRejected? <==> (p.origen.Some? && p.dest.Some?
      && ValidarBloqueoOrigenDestino(p.origen.value, p.dest.value, layer, blocked) != Valid)
    ensures o.EndpointRejected? ==>
      o.v.Rejected? && o.v == ValidarBloqueoOrigenDestino(p.origen.value, p.dest.value, layer, blocked)
    ensures o == NoMap <==> (p.origen.Some? && p.dest.Some? && !hasMap
      && ValidarBloqueoOrigenDestino(p.origen.value, p.dest.value, layer, blocked) == Valid)
    ensures o.Requested? ==>
      hasMap && p.origen.Some? && p.dest.Some? && o.waypoints == Waypoints(p)
      && ValidarBloqueoOrigenDestino(p.origen.value, p.dest.value, layer, blocked) == Valid
    ensures (p.origen.Some? && p.dest.Some? && hasMap
      && ValidarBloqueoOrigenDestino(p.origen.value, p.dest.value, layer, blocked) == Valid) ==>
      o.Requested?
  {
    if p.origen.None? then MissingOrigin
    else if p.dest.None? then MissingDest
    else
      var v := ValidarBloqueoOrigenDestino(p.origen.value, p.dest.value, layer, blocked);
      if v != Valid then EndpointRejected(v)
      else if !hasMap then NoMap
      else Requested(Waypoints(p))
  }

  /** `recalcularRuta`: a new request only with both ends set. */
  function RecalcularRuta(p: Slots, layer: Option<seq<Zone>>, blocked: seq<string>, hasMap: bool): (o: Option<CalcOutcome>)
    ensures o.Some? <==> p.origen.Some? && p.dest.Some?
    ensures o.Some? ==> o.value != MissingOrigin && o.value != MissingDest
  {
    if p.origen.Some? && p.dest.Some? then Some(CalcularRuta(p, layer, blocked, hasMap)) else None
  }

  // ---------------------------------------------------------------------
  // The route list

  /** The smallest unblocked index at or after `from`. */
  function FirstUnblockedFrom(routes: seq<Route>, from: nat, isBlocked: Route -> bool): (r: Option<nat>)
    ensures r.Some? ==>
      from <= r.value < |routes| && !isBlocked(routes[r.value])
      && forall k :: from <= k < r.value ==> isBlocked(routes[k])
    ensures r.None? ==> forall k :: from <= k < |routes| ==> isBlocked(routes[k])
    decreases |routes| - from
  {
    if from >= |routes| then None
    else if !isBlocked(routes[from]) then Some(from)
    else FirstUnblockedFrom(routes, from + 1, isBlocked)
  }

  /** The filter's head is the route at the first unblocked index, and
      `indexOf` finds exactly that index. */
  lemma {:induction false} UnblockedHead(routes: seq<Route>, j: nat, isBlocked: Route -> bool)
    requires j < |routes| && !isBlocked(routes[j])
    requires forall k :: 0 <= k < j ==> isBlocked(routes[k])
    ensures Unblocked(routes, isBlocked) != []
    ensures Unblocked(routes, isBlocked)[0] == routes[j]
    ensures IndexOf(routes, Unblocked(routes, isBlocked)[0]) == j
  {
    if j > 0 {
      assert isBlocked(routes[0]);
      UnblockedHead(routes[1..], j - 1, isBlocked);
    }
    var i := IndexOf(routes, routes[j]);
    assert routes[i] == routes[j];
  }

  lemma {:induction false} UnblockedEmpty(routes: seq<Route>, isBlocked: Route -> bool)
    requires forall k :: 0 <= k < |routes| ==> isBlocked(routes[k])
    ensures Unblocked(routes, isBlocked) == []
  {
    if routes != [] {
      assert isBlocked(routes[0]);
      UnblockedEmpty(routes[1..], isBlocked);
    }
  }

  /** A single unblocked index makes a filter of at most one route. */
  lemma {:induction false} UnblockedAtMostOne(routes: seq<Route>, c: nat, isBlocked: Route -> bool)
    requires forall k :: 0 <= k < |routes| && k != c ==> isBlocked(routes[k])
    ensures |Unblocked(routes, isBlocked)| <= 1
  {
    if routes != [] {
      if c == 0 {
        UnblockedEmpty(routes[1..], isBlocked);
      } else {
        assert isBlocked(routes[0]);
        UnblockedAtMostOne(routes[1..], c - 1, isBlocked);
      }
    }
  }

  /** The entries `onRoutesFound` writes for the first unblocked route. */
  function FoundPatch(routes: seq<Route>, isBlocked: Route -> bool): (patch: State)
    requires Unblocked(routes, isBlocked) != []
    ensures RoutesOf(patch) == routes
    ensures 0 <= RutaIndexOf(patch) < |routes|
    ensures CurrentRouteOf(patch) == Some(routes[RutaIndexOf(patch)])
    ensures !isBlocked(routes[RutaIndexOf(patch)])
    ensures forall k :: 0 <= k < RutaIndexOf(patch) ==> isBlocked(routes[k])
  {
    var valid := Unblocked(routes, isBlocked);
    var j := FirstUnblockedFrom(routes, 0, isBlocked);
    if j.None? then
      UnblockedEmpty(routes, isBlocked);
      map[]
    else
      UnblockedHead(routes, j.value, isBlocked);
      map[RutasEncontradas := RoutesVal(routes), RutaIndex := IndexVal(IndexOf(routes, valid[0])),
          CurrentRoute := RouteVal(Some(valid[0]))]
  }

  /** `onRoutesFound`: with no unblocked route nothing changes (an error is
      shown); otherwise the routes are stored and the first unblocked one
      becomes the current route, at its own index. */
  method OnRoutesFound(store: Store, routes: seq<Route>, layer: Option<seq<Zone>>)
    returns (accepted: bool)
    modifies store
    ensures var isBlocked := Blocker(layer, BlockedOf(old(store.state)));
      accepted == (Unblocked(routes, isBlocked) != [])
      && (!accepted ==> store.state == old(store.state))
      && (accepted ==> store.state == old(store.state) + FoundPatch(routes, isBlocked))
    ensures store.listeners == old(store.listeners)
  {
    var isBlocked := Blocker(layer, BlockedOf(store.state));
    var valid := Unblocked(routes, isBlocked);
    if |valid| == 0 {
      return false;
    }
    var patch := map[RutasEncontradas := RoutesVal(routes), RutaIndex := IndexVal(IndexOf(routes, valid[0])),
                     CurrentRoute := RouteVal(Some(valid[0]))];
    assert patch == FoundPatch(routes, isBlocked);
    var _ := store.Set(patch);
    accepted := true;
  }

  /** The index `cambiarRutaAlternativa` moves to: the smallest unblocked
      index above the current one, else the smallest unblocked index. */
  function NextIndex(routes: seq<Route>, current: int, isBlocked: Route -> bool): (n: Option<nat>)
    ensures n.Some? ==> n.value < |routes| && !isBlocked(routes[n.value])
    ensures n.None? <==> forall k :: 0 <= k < |routes| ==> isBlocked(routes[k])
  {
    var above := FirstUnblockedFrom(routes, Above(current), isBlocked);
    if above.Some? then above else FirstUnblockedFrom(routes, 0, isBlocked)
  }

  /** The first index greater than `after`. */
  function Above(after: int): nat {
    if after + 1 < 0 then 0 else after + 1
  }

  /** One search loop of `cambiarRutaAlternativa`: the first index greater
      than `after` whose route is unblocked, or -1. The second loop is the
      same search with `after` = -1. */
  method FindUnblockedAfter(routes: seq<Route>, after: int, isBlocked: Route -> bool) returns (nuevoIndex: int)
    ensures var r := FirstUnblockedFrom(routes, Above(after), isBlocked);
      (r.None? ==> nuevoIndex == -1) && (r.Some? ==> nuevoIndex == r.value)
  {
    nuevoIndex := -1;
    var i := 0;
    while i < |routes|
      invariant 0 <= i <= |routes|
      invariant forall k :: 0 <= k < i && k > after ==> isBlocked(routes[k])
    {
      if i > after && !isBlocked(routes[i]) {
        return i;
      }
      i := i + 1;
    }
  }

  /** With two or more unblocked routes and the current index on an
      unblocked route, the next index is a different one. */
  lemma NextIndexMoves(routes: seq<Route>, current: nat, isBlocked: Route -> bool)
    requires current < |routes| && !isBlocked(routes[current])
    requires |Unblocked(routes, isBlocked)| >= 2
    ensures NextIndex(routes, current, isBlocked).Some?
    ensures NextIndex(routes, current, isBlocked).value != current
  {
    var above := FirstUnblockedFrom(routes, current + 1, isBlocked);
    if above.None? {
      var first := FirstUnblockedFrom(routes, 0, isBlocked);
      if first.value == current {
        UnblockedAtMostOne(routes, current, isBlocked);
      }
    }
  }

  /** The next index goes up to the next unblocked route, and wraps to the
      first unblocked route after the last one. */
  lemma NextIndexWraps(routes: seq<Route>, current: nat, isBlocked: Route -> bool)
    requires forall k :: current < k < |routes| ==> isBlocked(routes[k])
    ensures NextIndex(routes, current, isBlocked) == FirstUnblockedFrom(routes, 0, isBlocked)
  {
  }

  /** `cambiarRutaAlternativa`: with fewer than two routes or fewer than two
      unblocked ones nothing changes; otherwise the current route moves to
      `NextIndex`, unless that is the current index. */
  method CambiarRutaAlternativa(store: Store, layer: Option<seq<Zone>>) returns (switched: bool)
    modifies store
    ensures var isBlocked := Blocker(layer, BlockedOf(old(store.state)));
      var routes := RoutesOf(old(store.state));
      var n := NextIndex(routes, RutaIndexOf(old(store.state)), isBlocked);
      (switched <==>
        |routes| >= 2 && |Unblocked(routes, isBlocked)| >= 2 && n.Some? && n.value != RutaIndexOf(old(store.state)))
      && (!switched ==> store.state == old(store.state))
      && (switched ==>
        store.state == old(store.state)
          + map[RutaIndex := IndexVal(n.value), CurrentRoute := RouteVal(Some(routes[n.value]))])
    ensures store.listeners == old(store.listeners)
  {
    var routes := RoutesOf(store.state);
    if |routes| < 2 {
      return false;
    }
    var isBlocked := Blocker(layer, BlockedOf(store.state));
    if |Unblocked(routes, isBlocked)| < 2 {
      return false;
    }
    var currentIndex := RutaIndexOf(store.state);
    var nuevoIndex := FindUnblockedAfter(routes, currentIndex, isBlocked);
    if nuevoIndex == -1 {
      nuevoIndex := FindUnblockedAfter(routes, -1, isBlocked);
    }
    if nuevoIndex == -1 || nuevoIndex == currentIndex {
      return false;
    }
    var _ := store.Set(map[RutaIndex := IndexVal(nuevoIndex), CurrentRoute := RouteVal(Some(routes[nuevoIndex]))]);
    switched := true;
  }

  /** After a switch the current route is the route at the stored index, and
      it is unblocked. */
  lemma SwitchKeepsSelection(s: State, layer: Option<seq<Zone>>)
    requires var n := NextIndex(RoutesOf(s), RutaIndexOf(s), Blocker(layer, BlockedOf(s))); n.Some?
    ensures var routes := RoutesOf(s);
      var n := NextIndex(routes, RutaIndexOf(s), Blocker(layer, BlockedOf(s))).value;
      var t := s + map[RutaIndex := IndexVal(n), CurrentRoute := RouteVal(Some(routes[n]))];
      RoutesOf(t) == routes && 0 <= RutaIndexOf(t) < |RoutesOf(t)|
      && CurrentRouteOf(t) == Some(RoutesOf(t)[RutaIndexOf(t)])
      && !RutaPasaPorBloqueada(RoutesOf(t)[RutaIndexOf(t)], layer, BlockedOf(t))
  {
  }
}
