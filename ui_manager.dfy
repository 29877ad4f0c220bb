/** The interface controller's own decisions and state changes: blocking
    and unblocking a hacienda by name, placing a point unless it lies in
    a blocked hacienda, dropping the stopover, the icon shown for a turn
    instruction, the swipe that opens or closes the sidebar, and the
    simulated progress bar of a calculated route. */
module UiManager {
  import opened Common
  import opened Geo
  import opened StateManager
  import opened RouteCalculator

  // ---------------------------------------------------------------------
  // Blocked haciendas

  /** The block list after toggling `nombre`: one occurrence fewer when it
      is listed, otherwise the old list with the name added at the end. */
  function Toggled(blocked: seq<string>, nombre: string): (r: seq<string>)
    ensures nombre in blocked ==>
      multiset(r) == multiset(blocked) - multiset{nombre} && |r| == |blocked| - 1
    ensures nombre !in blocked ==>
      multiset(r) == multiset(blocked) + multiset{nombre} && |r| == |blocked| + 1
      && r[..|blocked|] == blocked && r[|blocked|] == nombre
  {
    var index := IndexOf(blocked, nombre);
    if index > -1 then RemoveAt(blocked, index) else blocked + [nombre]
  }

  /** Only the toggled name changes its count: a listed name loses one
      occurrence, an unlisted one gets exactly one. */
  lemma ToggledCounts(blocked: seq<string>, nombre: string, x: string)
    ensures x != nombre ==> Count(Toggled(blocked, nombre), x) == Count(blocked, x)
    ensures Count(Toggled(blocked, nombre), nombre)
      == if nombre in blocked then Count(blocked, nombre) - 1 else 1
  {
  }

  /** Toggling a name that is listed at most once twice gives back the
      same names, as often as before. */
  lemma {:induction false} ToggleTwice(blocked: seq<string>, nombre: string)
    requires Count(blocked, nombre) <= 1
    ensures multiset(Toggled(Toggled(blocked, nombre), nombre)) == multiset(blocked)
  {
    var once := Toggled(blocked, nombre);
    if nombre in blocked {
      assert multiset(blocked)[nombre] == 1;
      assert multiset(once)[nombre] == 0;
      assert nombre !in once;
      assert multiset(once) + multiset{nombre} == multiset(blocked);
    } else {
      assert nombre in once by { assert once[|blocked|] == nombre; }
      assert multiset(once) - multiset{nombre} == multiset(blocked);
    }
  }

  /** `toggleBlockHacienda(nombre)`: the toggled list replaces the old one.
      Blocking a name while a route is shown schedules a recalculation;
      unblocking never does. */
  method ToggleBlockHacienda(store: Store, nombre: string) returns (blocking: bool, recalc: bool)
    modifies store
    ensures store.state
      == old(store.state) + map[BlockedHaciendas := NamesVal(Toggled(BlockedOf(old(store.state)), nombre))]
    ensures store.listeners == old(store.listeners)
    ensures blocking <==> nombre !in BlockedOf(old(store.state))
    ensures recalc <==> blocking && CurrentRouteOf(old(store.state)).Some?
  {
    var blockedHaciendas := BlockedOf(store.state);
    var route := CurrentRouteOf(store.state);
    var index := IndexOf(blockedHaciendas, nombre);
    if index > -1 {
      blockedHaciendas := RemoveAt(blockedHaciendas, index);
      blocking := false;
    } else {
      blockedHaciendas := blockedHaciendas + [nombre];
      blocking := true;
    }
    assert blockedHaciendas == Toggled(BlockedOf(old(store.state)), nombre);
    var _ := store.Set(map[BlockedHaciendas := NamesVal(blockedHaciendas)]);
    // Only blocking asks for a new route, and only when one is shown.
    recalc := blocking && route.Some?;
  }

  // ---------------------------------------------------------------------
  // Points and the stopover

  /** The state after a point of kind `tipo` is placed at `p`: the point
      and its marker are at `p`, the other kinds keep theirs, a manual
      selection of that kind is over and every other entry is as it was.
      A marker is represented by its position. */
  function PlacePoint(s: State, tipo: PointKind, p: Point): (r: State)
    ensures PuntosOf(r).Get(tipo) == Some(p) && MarkersOf(r).Get(tipo) == Some(p)
    ensures forall k :: k != tipo ==>
      PuntosOf(r).Get(k) == PuntosOf(s).Get(k) && MarkersOf(r).Get(k) == MarkersOf(s).Get(k)
    ensures ModoManualOf(r) == if ModoManualOf(s) == Some(tipo) then None else ModoManualOf(s)
    ensures forall k :: k != Puntos && k != Markers && k != ModoManual ==>
      (k in r <==> k in s) && (k in s ==> r[k] == s[k])
  {
    var placed := s + map[Puntos := PointsVal(PuntosOf(s).With(tipo, Some(p))),
                          Markers := PointsVal(MarkersOf(s).With(tipo, Some(p)))];
    if ModoManualOf(placed) == Some(tipo) then placed + map[ModoManual := ModeVal(None)] else placed
  }

  datatype Placement = MapMissing | InBlockedHacienda(nombre: string) | Placed(recalc: bool)

  /** `setPunto(tipo, latlng, nombre)` of the interface: nothing without a
      map; a point inside the bounds of a hacienda whose name is blocked
      is refused, naming that hacienda (the last such layer), and nothing
      changes; otherwise the point is placed and a recalculation is
      scheduled when a route is shown. */
  method SetPunto(store: Store, tipo: PointKind, latlng: Point, nombre: string,
                  hasMap: bool, layer: Option<seq<Zone>>) returns (placement: Placement)
    modifies store
    ensures store.listeners == old(store.listeners)
    ensures placement == MapMissing <==> !hasMap
    ensures placement.InBlockedHacienda? <==>
      hasMap && layer.Some? && PointBlocked(layer.value, BlockedOf(old(store.state)), latlng)
    ensures placement.InBlockedHacienda? ==>
      layer.Some? && LastBlocking(layer.value, BlockedOf(old(store.state)), latlng) == Some(placement.nombre)
    ensures !placement.Placed? ==> store.state == old(store.state)
    ensures placement.Placed? ==>
      store.state == PlacePoint(old(store.state), tipo, latlng)
      && (placement.recalc <==> CurrentRouteOf(old(store.state)).Some?)
  {
    if !hasMap {
      return MapMissing;
    }
    var blockedHaciendas := BlockedOf(store.state);
    if layer.Some? {
      var haciendaBloqueada := LastBlocking(layer.value, blockedHaciendas, latlng);
      if haciendaBloqueada.Some? {
        return InBlockedHacienda(haciendaBloqueada.value);
      }
    }
    var nuevosPuntos := PuntosOf(store.state).With(tipo, Some(latlng));
    var nuevosMarkers := MarkersOf(store.state).With(tipo, Some(latlng));
    var _ := store.Set(map[Puntos := PointsVal(nuevosPuntos), Markers := PointsVal(nuevosMarkers)]);
    if ModoManualOf(store.state) == Some(tipo) {
      var _ := store.Set(map[ModoManual := ModeVal(None)]);
    }
    placement := Placed(CurrentRouteOf(store.state).Some?);
  }

  /** The state once the stopover is dropped: no intermediate point, no
      intermediate marker when there was one and a map to remove it
      from, and everything else as it was. */
  function WithoutStopover(s: State, hasMap: bool): (r: State)
    ensures PuntosOf(r).inter.None?
    ensures PuntosOf(r).origen == PuntosOf(s).origen && PuntosOf(r).dest == PuntosOf(s).dest
    ensures MarkersOf(r).inter == if hasMap then None else MarkersOf(s).inter
    ensures MarkersOf(r).origen == MarkersOf(s).origen && MarkersOf(r).dest == MarkersOf(s).dest
    ensures forall k :: k != Puntos && k != Markers ==> (k in r <==> k in s) && (k in s ==> r[k] == s[k])
  {
    var cleared := s + map[Puntos := PointsVal(PuntosOf(s).(inter := None))];
    var markers := MarkersOf(cleared);
    if markers.inter.Some? && hasMap then cleared + map[Markers := PointsVal(markers.(inter := None))]
    else cleared
  }

  /** `toggleParada(mostrar)`: only with the stopover controls on the page
      does anything happen, and only hiding changes the state: the
      stopover is dropped and a recalculation is scheduled when a route
      is shown. */
  method ToggleParada(store: Store, mostrar: bool, hasControls: bool, hasMap: bool) returns (recalc: bool)
    modifies store
    ensures store.listeners == old(store.listeners)
    ensures mostrar || !hasControls ==> store.state == old(store.state) && !recalc
    ensures !mostrar && hasControls ==>
      store.state == WithoutStopover(old(store.state), hasMap)
      && (recalc <==> CurrentRouteOf(old(store.state)).Some?)
  {
    recalc := false;
    if hasControls && !mostrar {
      var puntos := PuntosOf(store.state);
      var _ := store.Set(map[Puntos := PointsVal(puntos.(inter := None))]);
      var markers := MarkersOf(store.state);
      if markers.inter.Some? && hasMap {
        var _ := store.Set(map[Markers := PointsVal(markers.(inter := None))]);
      }
      recalc := CurrentRouteOf(store.state).Some?;
    }
  }

  // ---------------------------------------------------------------------
  // Instruction icons

  /** The icon of each instruction type that has one of its own. */
  const IconTable: map<string, string> :=
    map["Head" := "fas fa-road", "Continue" := "fas fa-long-arrow-alt-right",
        "TurnLeft" := "fas fa-arrow-left", "TurnRight" := "fas fa-arrow-right",
        "SharpLeft" := "fas fa-arrow-circle-left", "SharpRight" := "fas fa-arrow-circle-right",
        "SlightLeft" := "fas fa-arrow-left rotate-45", "SlightRight" := "fas fa-arrow-right rotate-45",
        "Roundabout" := "fas fa-sync", "DestinationReached" := "fas fa-flag-checkered",
        "WaypointReached" := "fas fa-map-pin"]

  predicate Mentions(mod: Option<string>, side: string) {
    mod.Some? && Contains(mod.value, side)
  }

  /** `getIconoInstruccion(type, mod)`: the table's icon for the eleven
      listed types; any other type points by its modifier, a modifier
      naming "Left" winning over one naming "Right", and straight ahead
      when it names neither. */
  function GetIconoInstruccion(kind: string, mod: Option<string>): (icon: string)
    ensures kind in IconTable ==> icon == IconTable[kind]
    ensures kind !in IconTable && Mentions(mod, "Left") ==> icon == "fas fa-arrow-left"
    ensures kind !in IconTable && !Mentions(mod, "Left") && Mentions(mod, "Right") ==>
      icon == "fas fa-arrow-right"
    ensures kind !in IconTable && !Mentions(mod, "Left") && !Mentions(mod, "Right") ==>
      icon == "fas fa-arrow-up"
  {
    if kind == "Head" then "fas fa-road"
    else if kind == "Continue" then "fas fa-long-arrow-alt-right"
    else if kind == "TurnLeft" then "fas fa-arrow-left"
    else if kind == "TurnRight" then "fas fa-arrow-right"
    else if kind == "SharpLeft" then "fas fa-arrow-circle-left"
    else if kind == "SharpRight" then "fas fa-arrow-circle-right"
    else if kind == "SlightLeft" then "fas fa-arrow-left rotate-45"
    else if kind == "SlightRight" then "fas fa-arrow-right rotate-45"
    else if kind == "Roundabout" then "fas fa-sync"
    else if kind == "DestinationReached" then "fas fa-flag-checkered"
    else if kind == "WaypointReached" then "fas fa-map-pin"
    else if Mentions(mod, "Left") then "fas fa-arrow-left"
    else if Mentions(mod, "Right") then "fas fa-arrow-right"
    else "fas fa-arrow-up"
  }

  // ---------------------------------------------------------------------
  // Swipe gestures

  datatype Swipe = NoSwipe | OpenSidebar | CloseSidebar

  function Abs(x: real): real {
    if x < 0.0 then -x else x
  }

  /** A recorded touch coordinate that the handler accepts: present and
      not 0, since a start at coordinate 0 reads as missing. */
  predicate Recorded(c: Option<real>) {
    c.Some? && c.value != 0.0
  }

  /** The gesture a single-finger swipe from (`x0`, `y0`) to (`x1`, `y1`)
      makes: a move of more than 50 pixels across with less than 30 up
      or down; leftwards opens the sidebar and rightwards closes it. */
  function ClassifySwipe(x0: real, y0: real, x1: real, y1: real): (r: Swipe)
    ensures r != NoSwipe <==> Abs(x0 - x1) > 50.0 && Abs(y0 - y1) < 30.0
    ensures r == OpenSidebar ==> x1 < x0 - 50.0
    ensures r == CloseSidebar ==> x1 > x0 + 50.0
  {
    var diffX := x0 - x1;
    var diffY := y0 - y1;
    if Abs(diffX) > 50.0 && Abs(diffY) < 30.0 then
      if diffX > 0.0 then OpenSidebar else CloseSidebar
    else NoSwipe
  }

  /** The same path walked backwards makes the opposite gesture. */
  lemma SwipeReversed(x0: real, y0: real, x1: real, y1: real)
    ensures ClassifySwipe(x0, y0, x1, y1) == OpenSidebar <==> ClassifySwipe(x1, y1, x0, y0) == CloseSidebar
    ensures ClassifySwipe(x0, y0, x1, y1) == NoSwipe <==> ClassifySwipe(x1, y1, x0, y0) == NoSwipe
  {
  }

  /** The touch handlers of the map and the start point they share. */
  class TouchGestures {
    var startX: Option<real>
    var startY: Option<real>

    constructor()
      ensures startX.None? && startY.None?
    {
      startX, startY := None, None;
    }

    /** `touchstart`: a single touch records where it began. */
    method TouchStart(touches: nat, x: real, y: real)
      modifies this
      ensures touches == 1 ==> startX == Some(x) && startY == Some(y)
      ensures touches != 1 ==> startX == old(startX) && startY == old(startY)
    {
      if touches == 1 {
        startX, startY := Some(x), Some(y);
      }
    }

    /** `touchend`: without an accepted start or with other than one
        changed touch nothing happens and the start is kept; otherwise
        the move is classified and the start forgotten. */
    method TouchEnd(touches: nat, x: real, y: real) returns (swipe: Swipe)
      modifies this
      ensures !Recorded(old(startX)) || !Recorded(old(startY)) || touches != 1 ==>
        swipe == NoSwipe && startX == old(startX) && startY == old(startY)
      ensures Recorded(old(startX)) && Recorded(old(startY)) && touches == 1 ==>
        swipe == ClassifySwipe(old(startX).value, old(startY).value, x, y)
        && startX.None? && startY.None?
    {
      if !Recorded(startX) || !Recorded(startY) || touches != 1 {
        return NoSwipe;
      }
      swipe := ClassifySwipe(startX.value, startY.value, x, y);
      startX, startY := None, None;
    }
  }

  // ---------------------------------------------------------------------
  // Simulated route progress

  /** The distance shown after `n` ticks of the progress bar: a
      hundredth of the total more on every tick, never past the total. */
  function Simulated(total: real, n: nat): real
    requires total >= 0.0
  {
    if n == 0 then 0.0
    else
      var grown := Simulated(total, n - 1) + total / 100.0;
      if grown > total then total else grown
  }

  /** One tick within the first hundred: `k - 1` hundredths plus one
      more make `k` hundredths, which do not pass the total. */
  lemma GrowthStep(total: real, k: nat, prev: real)
    requires total >= 0.0 && 1 <= k <= 100
    requires prev == (k - 1) as real * total / 100.0
    ensures prev + total / 100.0 <= total
    ensures prev + total / 100.0 == k as real * total / 100.0
  {
    var r := k as real;
    assert (k - 1) as real == r - 1.0;
    assert (r - 1.0) * total == r * total - total;
    assert 100.0 * total - r * total == (100.0 - r) * total;
  }

  /** The bar grows linearly for a hundred ticks and then stays full. */
  lemma {:induction false} SimulatedClosedForm(total: real, n: nat)
    requires total >= 0.0
    ensures Simulated(total, n) == if n <= 100 then n as real * total / 100.0 else total
  {
    if n > 0 {
      SimulatedClosedForm(total, n - 1);
      if n <= 100 {
        var grown := Simulated(total, n - 1) + total / 100.0;
        assert Simulated(total, n) == if grown > total then total else grown;
        GrowthStep(total, n, Simulated(total, n - 1));
        assert Simulated(total, n) == grown;
      } else {
        // Past a hundred ticks the bar was already full.
        if n == 101 {
          assert 100.0 * total / 100.0 == total;
        }
        assert Simulated(total, n - 1) == total;
        var grown := Simulated(total, n - 1) + total / 100.0;
        assert Simulated(total, n) == if grown > total then total else grown;
        assert grown >= total;
      }
    }
  }

  /** The percentage shown: `min(100, acumulado / totalDist * 100)`, or
      nothing (NaN) for a route of length 0. */
  function Percent(acumulado: real, totalDist: real): (p: Option<real>)
    ensures p.Some? <==> totalDist != 0.0
    ensures p.Some? && 0.0 <= acumulado && 0.0 < totalDist ==> 0.0 <= p.value <= 100.0
    ensures p.Some? && 0.0 < totalDist && acumulado >= totalDist ==> p.value == 100.0
  {
    if totalDist == 0.0 then None
    else
      var raw := acumulado / totalDist * 100.0;
      Some(if raw < 100.0 then raw else 100.0)
  }

  /** The progress bar of `actualizarProgresoRuta`: the interval's
      accumulator and whether the interval is still set. */
  class ProgressBar {
    var totalDist: real
    var acumulado: real
    var running: bool
    ghost var ticks: nat

    ghost predicate Valid()
      reads this
    {
      totalDist >= 0.0 && acumulado == Simulated(totalDist, ticks)
      && 0.0 <= acumulado <= totalDist
    }

    /** A new simulation for a route of the given length. */
    constructor(ruta: Route)
      requires ruta.summary.totalDistance >= 0.0
      ensures Valid() && running && ticks == 0 && acumulado == 0.0
      ensures totalDist == ruta.summary.totalDistance
    {
      totalDist := ruta.summary.totalDistance;
      acumulado := 0.0;
      running := true;
      ticks := 0;
    }

    /** One tick of the interval: the accumulator grows by a hundredth of
        the total, and passing the total clamps it and clears the
        interval. The percentage shown is returned. */
    method Tick() returns (percent: Option<real>)
      requires Valid() && running
      modifies this
      ensures Valid() && ticks == old(ticks) + 1 && totalDist == old(totalDist)
      ensures running <==> old(acumulado) + totalDist / 100.0 <= totalDist
      ensures percent == Percent(acumulado, totalDist)
      ensures totalDist > 0.0 ==> percent.Some? && 0.0 <= percent.value <= 100.0
    {
      acumulado := acumulado + totalDist / 100.0;
      if acumulado > totalDist {
        acumulado := totalDist;
        running := false;
      }
      ticks := ticks + 1;
      percent := Percent(acumulado, totalDist);
    }
  }

  /** For a route of positive length the interval is cleared on the
      hundred-and-first tick, when the bar is full. */
  lemma ProgressStops(total: real, n: nat)
    requires total > 0.0
    ensures Simulated(total, n) + total / 100.0 > total <==> n >= 100
    ensures n >= 100 ==> Simulated(total, n + 1) == total
  {
    SimulatedClosedForm(total, n);
    SimulatedClosedForm(total, n + 1);
    if n < 100 {
      assert n as real * total / 100.0 + total / 100.0 == (n + 1) as real * total / 100.0;
      assert (n + 1) as real * total <= 100.0 * total;
    }
  }
}
