/** The base maps: of the configured tile layers exactly one is on the
    map at a time, and the `capas` entry of the application state marks
    that one as on and the other base layers as off. Which one is the
    default depends on the window width. */
module LayerManager {
  import opened Common
  import opened StateManager

  /** The configured base layers, in the order they are declared. */
  const BaseKeys: seq<string> := ["calles", "satelite", "topografico"]

  /** `window.innerWidth <= 768`. */
  predicate IsMobile(width: int) {
    width <= 768
  }

  /** A layer flag as the code reads it: a missing entry counts as off. */
  predicate LayerOn(capas: map<string, bool>, k: string) {
    k in capas && capas[k]
  }

  /** The `capas` object after the forEach over `keys` that sets each
      base layer's flag to whether it is `name`: every key of `keys` on
      exactly when it is `name`, every other entry as it was. */
  function Selected(capas: map<string, bool>, keys: seq<string>, name: string): (r: map<string, bool>)
    ensures forall k :: k in r <==> k in capas || k in keys
    ensures forall k :: k in keys ==> (LayerOn(r, k) <==> k == name)
    ensures forall k :: k in capas && k !in keys ==> r[k] == capas[k]
  {
    if keys == [] then capas
    else
      var last := keys[|keys| - 1];
      assert forall k :: k in keys <==> k in keys[..|keys| - 1] || k == last;
      Selected(capas, keys[..|keys| - 1], name)[last := last == name]
  }

  /** `handleResize`'s choice: on a small screen the satellite map
      unless it is already on; on a large one the street map when no
      base layer is on; otherwise none. */
  function ResizeTarget(width: int, capas: map<string, bool>): (t: Option<string>)
    ensures t == Some("satelite") <==> IsMobile(width) && !LayerOn(capas, "satelite")
    ensures t == Some("calles") <==>
      !IsMobile(width) && forall k :: k in BaseKeys ==> !LayerOn(capas, k)
    ensures t.Some? ==> t.value in BaseKeys
  {
    if IsMobile(width) && !LayerOn(capas, "satelite") then Some("satelite")
    else if !IsMobile(width) && !LayerOn(capas, "calles") && !LayerOn(capas, "satelite")
            && !LayerOn(capas, "topografico") then Some("calles")
    else None
  }

  /** A resize that switched leaves nothing for the next resize at the
      same width to do. */
  lemma ResizeSettles(width: int, capas: map<string, bool>)
    requires ResizeTarget(width, capas).Some?
    ensures ResizeTarget(width, Selected(capas, BaseKeys, ResizeTarget(width, capas).value)).None?
  {
    var t := ResizeTarget(width, capas).value;
    var after := Selected(capas, BaseKeys, t);
    assert LayerOn(after, t);
    if IsMobile(width) {
      assert t == "satelite";
    } else {
      assert t == "calles";
      assert "calles" in BaseKeys;
    }
  }

  /** `setDefaultLayer`'s choice among the base layers created so far. */
  function DefaultTarget(width: int, keys: seq<string>): (t: Option<string>)
    ensures t.Some? ==> t.value in keys
    ensures IsMobile(width) && "satelite" in keys ==> t == Some("satelite")
    ensures !IsMobile(width) && "calles" in keys ==> t == Some("calles")
    ensures t.None? <==> "calles" !in keys && !(IsMobile(width) && "satelite" in keys)
  {
    if IsMobile(width) && "satelite" in keys then Some("satelite")
    else if "calles" in keys then Some("calles")
    else None
  }

  /** The module's private variables: whether it has a map, the keys of
      the base layers it created, and the base layer it put on the map.
      `onMap` holds the base layers currently added to the map. */
  class Layers {
    var hasMap: bool
    var baseLayers: seq<string>
    var currentBaseLayer: Option<string>
    var onMap: set<string>

    /** The map shows the current base layer and no other, and the base
        layers are either not created yet or the configured ones. */
    ghost predicate Valid()
      reads this
    {
      onMap == (if currentBaseLayer.Some? then {currentBaseLayer.value} else {})
      && (currentBaseLayer.Some? ==> currentBaseLayer.value in baseLayers)
      && (baseLayers == [] || baseLayers == BaseKeys)
    }

    constructor()
      ensures Valid() && !hasMap && baseLayers == [] && currentBaseLayer.None?
    {
      hasMap, baseLayers, currentBaseLayer, onMap := false, [], None, {};
    }

    /** `switchToLayer(layerName)`: false and nothing changes without a
        map or for a name that is not a base layer; otherwise the
        previous base layer leaves the map, the chosen one takes its
        place, and `capas` marks it as the only base layer on. */
    method SwitchToLayer(store: Store, layerName: string) returns (ok: bool)
      requires Valid()
      modifies this, store
      ensures Valid()
      ensures hasMap == old(hasMap) && baseLayers == old(baseLayers)
      ensures store.listeners == old(store.listeners)
      ensures ok <==> old(hasMap) && layerName in old(baseLayers)
      ensures !ok ==>
        currentBaseLayer == old(currentBaseLayer) && onMap == old(onMap)
        && store.state == old(store.state)
      ensures ok ==>
        currentBaseLayer == Some(layerName) && onMap == {layerName}
        && store.state == old(store.state)
             + map[Capas := LayersVal(Selected(CapasOf(old(store.state)), baseLayers, layerName))]
    {
      if !hasMap || layerName !in baseLayers {
        return false;
      }
      if currentBaseLayer.Some? {
        onMap := onMap - {currentBaseLayer.value};
      }
      onMap := onMap + {layerName};
      currentBaseLayer := Some(layerName);
      var capas := CapasOf(store.state);
      var newCapas := capas;
      for i := 0 to |baseLayers|
        invariant newCapas == Selected(capas, baseLayers[..i], layerName)
      {
        assert baseLayers[..i + 1][..i] == baseLayers[..i];
        newCapas := newCapas[baseLayers[i] := baseLayers[i] == layerName];
      }
      assert baseLayers[..|baseLayers|] == baseLayers;
      var _ := store.Set(map[Capas := LayersVal(newCapas)]);
      ok := true;
    }

    /** `setDefaultLayer()` for a window `width` pixels wide. */
    method SetDefaultLayer(store: Store, width: int)
      requires Valid()
      modifies this, store
      ensures Valid()
      ensures hasMap == old(hasMap) && baseLayers == old(baseLayers)
      ensures store.listeners == old(store.listeners)
      ensures !hasMap || DefaultTarget(width, baseLayers).None? ==>
        currentBaseLayer == old(currentBaseLayer) && store.state == old(store.state)
      ensures hasMap && DefaultTarget(width, baseLayers).Some? ==>
        var name := DefaultTarget(width, baseLayers).value;
        currentBaseLayer == Some(name)
        && store.state == old(store.state)
             + map[Capas := LayersVal(Selected(CapasOf(old(store.state)), baseLayers, name))]
    {
      if IsMobile(width) && "satelite" in baseLayers {
        var _ := SwitchToLayer(store, "satelite");
      } else if "calles" in baseLayers {
        var _ := SwitchToLayer(store, "calles");
      }
    }

    /** `init(mapInstance)`: the map, the three base layers, and the
        default for the width: on a map exactly one base layer is on, the
        satellite map on a small screen and the street map otherwise. */
    method Init(store: Store, mapPresent: bool, width: int)
      requires Valid()
      modifies this, store
      ensures Valid() && hasMap == mapPresent && baseLayers == BaseKeys
      ensures store.listeners == old(store.listeners)
      ensures !mapPresent ==> currentBaseLayer == old(currentBaseLayer) && store.state == old(store.state)
      ensures mapPresent ==>
        currentBaseLayer == Some(if IsMobile(width) then "satelite" else "calles")
        && forall k :: k in BaseKeys ==>
             (LayerOn(CapasOf(store.state), k) <==> Some(k) == currentBaseLayer)
    {
      hasMap := mapPresent;
      baseLayers := BaseKeys;
      SetDefaultLayer(store, width);
    }

    /** `handleResize()` for a window `width` pixels wide: a switch to
        `ResizeTarget`'s choice, if there is one. */
    method HandleResize(store: Store, width: int)
      requires Valid()
      modifies this, store
      ensures Valid()
      ensures hasMap == old(hasMap) && baseLayers == old(baseLayers)
      ensures store.listeners == old(store.listeners)
      ensures var t := ResizeTarget(width, CapasOf(old(store.state)));
        if t.Some? && hasMap && t.value in baseLayers then
          currentBaseLayer == t
          && store.state == old(store.state)
               + map[Capas := LayersVal(Selected(CapasOf(old(store.state)), baseLayers, t.value))]
        else
          currentBaseLayer == old(currentBaseLayer) && store.state == old(store.state)
    {
      var capas := CapasOf(store.state);
      if IsMobile(width) && !LayerOn(capas, "satelite") {
        var _ := SwitchToLayer(store, "satelite");
      } else if !IsMobile(width) && !LayerOn(capas, "calles") && !LayerOn(capas, "satelite")
                && !LayerOn(capas, "topografico") {
        var _ := SwitchToLayer(store, "calles");
      }
    }
  }
}
