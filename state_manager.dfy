/** The application state store: one object of named entries that is
    replaced by a merge on every update, a list of subscribed listeners
    notified with the new and the previous state, and the status shown
    to the user, derived from the state. */
module StateManager {
  import opened Common
  import opened Geo

  // ---------------------------------------------------------------------
  // The entries of the state

  datatype PointKind = Origen | Inter | Dest

  /** The `{ origen, inter, dest }` objects (points, and marker positions). */
  datatype Slots = Slots(origen: Option<Point>, inter: Option<Point>, dest: Option<Point>)
  {
    function Get(k: PointKind): Option<Point> {
      match k
      case Origen => origen
      case Inter => inter
      case Dest => dest
    }

    function With(k: PointKind, p: Option<Point>): (s: Slots)
      ensures s.Get(k) == p
      ensures forall j :: j != k ==> s.Get(j) == Get(j)
    {
      match k
      case Origen => this.(origen := p)
      case Inter => this.(inter := p)
      case Dest => this.(dest := p)
    }

    /** How many of the three slots hold a point. */
    function Filled(): (n: nat)
      ensures n <= 3
    {
      (if origen.Some? then 1 else 0) + (if inter.Some? then 1 else 0)
      + (if dest.Some? then 1 else 0)
    }
  }

  const EmptySlots := Slots(None, None, None)

  datatype Key = Puntos | Markers | RutasEncontradas | RutaIndex | CurrentRoute
               | ModoManual | ModoBloqueo | GpsActivo | VozActiva
               | BlockedHaciendas | Capas

  datatype Value =
    | PointsVal(points: Slots)
    | RoutesVal(routes: seq<Route>)
    | IndexVal(index: int)
    | RouteVal(route: Option<Route>)
    | ModeVal(mode: Option<PointKind>)
    | FlagVal(flag: bool)
    | NamesVal(names: seq<string>)
    | LayersVal(layers: map<string, bool>)

  type State = map<Key, Value>

  const InitialCapas: map<string, bool> :=
    map["haciendas" := true, "calles" := true, "satelite" := false,
        "topografico" := false, "trafico" := false]

  function InitialState(): State {
    map[Puntos := PointsVal(EmptySlots), Markers := PointsVal(EmptySlots),
        RutasEncontradas := RoutesVal([]), RutaIndex := IndexVal(0),
        CurrentRoute := RouteVal(None), ModoManual := ModeVal(None),
        ModoBloqueo := FlagVal(false), GpsActivo := FlagVal(false),
        VozActiva := FlagVal(false), BlockedHaciendas := NamesVal([]),
        Capas := LayersVal(InitialCapas)]
  }

  // Typed readers of an entry. An entry that is missing or of another
  // shape reads as its initial value, as the callers' `|| []` and
  // `|| {}` fallbacks do.

  function PuntosOf(s: State): Slots {
    if Puntos in s && s[Puntos].PointsVal? then s[Puntos].points else EmptySlots
  }

  function MarkersOf(s: State): Slots {
    if Markers in s && s[Markers].PointsVal? then s[Markers].points else EmptySlots
  }

  function RoutesOf(s: State): seq<Route> {
    if RutasEncontradas in s && s[RutasEncontradas].RoutesVal? then s[RutasEncontradas].routes else []
  }

  function RutaIndexOf(s: State): int {
    if RutaIndex in s && s[RutaIndex].IndexVal? then s[RutaIndex].index else 0
  }

  function CurrentRouteOf(s: State): Option<Route> {
    if CurrentRoute in s && s[CurrentRoute].RouteVal? then s[CurrentRoute].route else None
  }

  function ModoManualOf(s: State): Option<PointKind> {
    if ModoManual in s && s[ModoManual].ModeVal? then s[ModoManual].mode else None
  }

  function FlagOf(s: State, k: Key): bool {
    k in s && s[k].FlagVal? && s[k].flag
  }

  function BlockedOf(s: State): seq<string> {
    if BlockedHaciendas in s && s[BlockedHaciendas].NamesVal? then s[BlockedHaciendas].names else []
  }

  function CapasOf(s: State): map<string, bool> {
    if Capas in s && s[Capas].LayersVal? then s[Capas].layers else map[]
  }

  /** The initial state reads as empty points, no routes, no route,
      nothing blocked, all flags off and the default layers. */
  lemma InitialStateReads()
    ensures PuntosOf(InitialState()) == EmptySlots && MarkersOf(InitialState()) == EmptySlots
    ensures RoutesOf(InitialState()) == [] && RutaIndexOf(InitialState()) == 0
    ensures CurrentRouteOf(InitialState()).None? && ModoManualOf(InitialState()).None?
    ensures BlockedOf(InitialState()) == [] && CapasOf(InitialState()) == InitialCapas
    ensures forall k :: !FlagOf(InitialState(), k)
  {
  }

  // ---------------------------------------------------------------------
  // Listeners

  /** A call `listener(newState, oldState)`; `oldState` is null after a reset. */
  datatype Notification = Notification(listener: nat, newState: State, oldState: Option<State>)

  /** One call per subscribed listener, in subscription order. */
  function Notify(listeners: seq<nat>, newState: State, oldState: Option<State>): (r: seq<Notification>)
    ensures |r| == |listeners|
    ensures forall i :: 0 <= i < |r| ==> r[i] == Notification(listeners[i], newState, oldState)
  {
    seq(|listeners|, i requires 0 <= i < |listeners| => Notification(listeners[i], newState, oldState))
  }

  /** Removing a listener: its first occurrence, if there is one. */
  function RemoveFirst(ls: seq<nat>, l: nat): (r: seq<nat>)
    ensures multiset(r) == multiset(ls) - multiset{l}
  {
    var i := IndexOf(ls, l);
    if i > -1 then RemoveAt(ls, i) else
      assert multiset(ls)[l] == 0;
      ls
  }

  /** A listener subscribed once is gone after its removal, and removing
      it again changes nothing. */
  lemma RemoveFirstOnce(ls: seq<nat>, l: nat)
    requires Count(ls, l) <= 1
    ensures l !in RemoveFirst(ls, l)
    ensures RemoveFirst(RemoveFirst(ls, l), l) == RemoveFirst(ls, l)
  {
    var r := RemoveFirst(ls, l);
    assert l !in multiset(r);
    assert IndexOf(r, l) == -1;
  }

  /** The other listeners keep their order. */
  lemma RemoveFirstKeepsOrder(ls: seq<nat>, l: nat)
    requires l in ls
    ensures exists i ::
      0 <= i < |ls| && ls[i] == l && l !in ls[..i] && RemoveFirst(ls, l) == ls[..i] + ls[i + 1..]
  {
    var i := IndexOf(ls, l);
    assert ls[i] == l && l !in ls[..i];
  }

  // ---------------------------------------------------------------------
  // The store

  class Store {
    var state: State
    var listeners: seq<nat>

    constructor()
      ensures state == InitialState() && listeners == []
    {
      state := InitialState();
      listeners := [];
    }

    /** `get(prop)`: the entry, or undefined. */
    function Get(k: Key): (v: Option<Value>)
      reads this
      ensures v.Some? <==> k in state
      ensures v.Some? ==> v.value == state[k]
    {
      if k in state then Some(state[k]) else None
    }

    /** `set(newState)`: the keys of `patch` take its values, every other
        key keeps its value, and each listener is told the new and the
        previous state, in subscription order. */
    method Set(patch: State) returns (notified: seq<Notification>)
      modifies this
      ensures state == old(state) + patch
      ensures listeners == old(listeners)
      ensures notified == Notify(listeners, state, Some(old(state)))
    {
      var oldState := state;
      state := state + patch;
      notified := [];
      for i := 0 to |listeners|
        invariant notified == Notify(listeners[..i], state, Some(oldState))
      {
        notified := notified + [Notification(listeners[i], state, Some(oldState))];
      }
    }

    /** `subscribe(listener)`: appended at the end. */
    method Subscribe(listener: nat)
      modifies this
      ensures listeners == old(listeners) + [listener]
      ensures state == old(state)
    {
      listeners := listeners + [listener];
    }

    /** The function `subscribe` returns: drops the first occurrence of the
        listener, if any. */
    method Unsubscribe(listener: nat)
      modifies this
      ensures listeners == RemoveFirst(old(listeners), listener)
      ensures state == old(state)
    {
      var index := IndexOf(listeners, listener);
      if index > -1 {
        listeners := listeners[..index] + listeners[index + 1..];
      }
    }

    /** `setPunto(tipo, latlng, nombre)`: the points object is changed in
        place before the merge, so the previous state the listeners see
        already holds the new point. The name is not used. */
    method SetPunto(tipo: PointKind, latlng: Option<Point>, nombre: string)
      returns (notified: seq<Notification>)
      modifies this
      ensures state == old(state)[Puntos := PointsVal(PuntosOf(old(state)).With(tipo, latlng))]
      ensures listeners == old(listeners)
      ensures notified == Notify(listeners, state, Some(state))
    {
      var puntos := PointsVal(PuntosOf(state).With(tipo, latlng));
      state := state[Puntos := puntos];
      notified := Set(map[Puntos := puntos]);
      assert state == old(state)[Puntos := puntos];
    }

    /** `limpiarTodo()`: unconfirmed, nothing happens and the answer is
        false; confirmed, the state is the initial one again and each
        listener is told so with a null previous state. */
    method LimpiarTodo(confirmed: bool) returns (done: bool, notified: seq<Notification>)
      modifies this
      ensures done == confirmed
      ensures listeners == old(listeners)
      ensures !confirmed ==> state == old(state) && notified == []
      ensures confirmed ==> state == InitialState() && notified == Notify(listeners, state, None)
    {
      if !confirmed {
        return false, [];
      }
      state := InitialState();
      notified := [];
      for i := 0 to |listeners|
        invariant notified == Notify(listeners[..i], state, None)
      {
        notified := notified + [Notification(listeners[i], state, None)];
      }
      done := true;
    }
  }

  /** A merge leaves every key outside the patch as it was and gives every
      key of the patch the patch's value. */
  lemma {:induction false} MergeFrame(s: State, patch: State, k: Key)
    ensures k in patch ==> (s + patch)[k] == patch[k]
    ensures k !in patch && k in s ==> (s + patch)[k] == s[k]
    ensures k in s + patch <==> k in s || k in patch
  {
  }

  // ---------------------------------------------------------------------
  // What the interface shows

  datatype AppStatus = RouteReady | ReadyToCalculate | SelectLocations

  /** "Ruta calculada" when every expected point (three with a stopover,
      else two) is set and a route exists; "Listo para calcular ruta" with
      at least two points; "Seleccione ubicaciones" otherwise. */
  function Status(s: State): (st: AppStatus)
    ensures st == SelectLocations <==> PuntosOf(s).Filled() < 2
  {
    var p := PuntosOf(s);
    var total := if p.inter.Some? then 3 else 2;
    if p.Filled() == total && CurrentRouteOf(s).Some? then RouteReady
    else if p.Filled() >= 2 then ReadyToCalculate
    else SelectLocations
  }

  /** A calculated route is shown only with origin, destination and a
      route present, and with the stopover present exactly when set. */
  lemma StatusRouteReady(s: State)
    ensures Status(s) == RouteReady <==>
      PuntosOf(s).origen.Some? && PuntosOf(s).dest.Some? && CurrentRouteOf(s).Some?
  {
  }

  /** "Listo" is shown for a stopover and a destination without an origin. */
  lemma ReadyWithoutOrigin(s: State, a: Point, b: Point)
    requires PuntosOf(s) == Slots(None, Some(a), Some(b))
    ensures Status(s) == ReadyToCalculate
  {
  }

  lemma StatusInitial()
    ensures Status(InitialState()) == SelectLocations
  {
  }

  /** The alternatives button: left as it is, offering a switch among `n`
      unblocked routes, or saying only one route is available. */
  datatype AltButton = AltUntouched | SwitchAmong(n: nat) | SingleRoute

  datatype RouteButtons = ButtonsHidden | ButtonsShown(alt: AltButton)

  /** `routes.filter(r => !isBlocked(r))`. */
  function Unblocked(routes: seq<Route>, isBlocked: Route -> bool): (r: seq<Route>)
    ensures |r| <= |routes|
    ensures forall x :: x in r ==> x in routes && !isBlocked(x)
  {
    if routes == [] then []
    else (if isBlocked(routes[0]) then [] else [routes[0]]) + Unblocked(routes[1..], isBlocked)
  }

  /** With no current route every route button is hidden. With one, the
      instruction and information panels are shown, and with more than one
      found route the alternatives button counts the unblocked ones. */
  function RouteButtonsOf(s: State, isBlocked: Route -> bool): (b: RouteButtons)
    ensures b == ButtonsHidden <==> CurrentRouteOf(s).None?
    ensures b.ButtonsShown? && b.alt == AltUntouched <==>
      CurrentRouteOf(s).Some? && |RoutesOf(s)| <= 1
    ensures b.ButtonsShown? && b.alt.SwitchAmong? ==>
      1 < b.alt.n == |Unblocked(RoutesOf(s), isBlocked)| <= |RoutesOf(s)|
    ensures b.ButtonsShown? && b.alt == SingleRoute ==>
      |RoutesOf(s)| > 1 && |Unblocked(RoutesOf(s), isBlocked)| <= 1
  {
    if CurrentRouteOf(s).None? then ButtonsHidden
    else if |RoutesOf(s)| <= 1 then ButtonsShown(AltUntouched)
    else
      var n := |Unblocked(RoutesOf(s), isBlocked)|;
      if n > 1 then ButtonsShown(SwitchAmong(n)) else ButtonsShown(SingleRoute)
  }
}
