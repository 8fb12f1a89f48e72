/** `MapComponent` (components/MapComponent.tsx): the zoom chosen for an
    accuracy, and the bookkeeping of the Leaflet map's layers across the
    component's effect and its cleanup. Leaflet is reduced to what the
    component touches: a view (centre and zoom), an ordered list of layers
    and whether the map was removed. */
module MapView {

  datatype TileSource = Imagery | Labels

  datatype Layer =
    | Tiles(source: TileSource)
    | Marker(lat: real, lon: real)
    | Circle(lat: real, lon: real, radius: real)

  /** `getZoomLevel`, written twice in the source with the same text: the
      more accurate the fix, the closer the zoom. */
  function ZoomLevel(accuracy: real): (z: int)
    ensures 15 <= z <= 19
    ensures accuracy < 10.0 <==> z == 19
    ensures 10.0 <= accuracy < 50.0 <==> z == 18
    ensures 50.0 <= accuracy < 100.0 <==> z == 17
    ensures 100.0 <= accuracy < 500.0 <==> z == 16
    ensures accuracy >= 500.0 <==> z == 15
  {
    if accuracy < 10.0 then 19
    else if accuracy < 50.0 then 18
    else if accuracy < 100.0 then 17
    else if accuracy < 500.0 then 16
    else 15
  }

  /** A worse accuracy never gives a closer zoom. */
  lemma ZoomNonIncreasing(better: real, worse: real)
    requires better <= worse
    ensures ZoomLevel(worse) <= ZoomLevel(better)
  {
  }

  /** The layers `eachLayer` picks out for removal: markers and circles. */
  predicate IsOverlay(l: Layer) {
    l.Marker? || l.Circle?
  }

  /** The marker, the accuracy circle and the 20-metre pulsing circle. */
  function Overlays(lat: real, lon: real, accuracy: real): seq<Layer> {
    [Marker(lat, lon), Circle(lat, lon, accuracy), Circle(lat, lon, 20.0)]
  }

  /** The two tile layers followed by the overlays, in the order added. */
  function InitialLayers(lat: real, lon: real, accuracy: real): seq<Layer> {
    [Tiles(Imagery), Tiles(Labels)] + Overlays(lat, lon, accuracy)
  }

  /** The layers left once every marker and circle is removed, in order. */
  function WithoutOverlays(ls: seq<Layer>): seq<Layer> {
    if ls == [] then [] else (if IsOverlay(ls[0]) then [] else [ls[0]]) + WithoutOverlays(ls[1..])
  }

  /** No marker or circle survives, and every tile layer does. */
  lemma {:induction false} WithoutOverlaysKeepsTiles(ls: seq<Layer>)
    ensures forall l :: l in WithoutOverlays(ls) <==> l in ls && !IsOverlay(l)
  {
    if ls != [] {
      WithoutOverlaysKeepsTiles(ls[1..]);
      assert ls == [ls[0]] + ls[1..];
    }
  }

  /** After an update the layers are what initialisation at the new
      position would have built, whenever they were initialisation's. */
  lemma UpdateMatchesInitial(lat0: real, lon0: real, acc0: real, lat: real, lon: real, acc: real)
    ensures WithoutOverlays(InitialLayers(lat0, lon0, acc0)) + Overlays(lat, lon, acc) == InitialLayers(lat, lon, acc)
  {
    var ls := InitialLayers(lat0, lon0, acc0);
    assert WithoutOverlays(ls[4..]) == [] by { assert ls[4..][1..] == []; }
    assert WithoutOverlays(ls[3..]) == [] by { assert ls[3..][1..] == ls[4..]; }
    assert WithoutOverlays(ls[2..]) == [] by { assert ls[2..][1..] == ls[3..]; }
    assert WithoutOverlays(ls[1..]) == [Tiles(Labels)] by { assert ls[1..][1..] == ls[2..]; }
  }

  /** Removing the layer at position `|kept|` leaves the rest in order. */
  lemma SpliceOut(kept: seq<Layer>, l: Layer, rest: seq<Layer>)
    ensures (kept + ([l] + rest))[..|kept|] + (kept + ([l] + rest))[|kept| + 1..] == kept + rest
  {
    var ls := kept + ([l] + rest);
    assert ls[..|kept|] == kept;
    assert ls[|kept| + 1..] == rest;
  }

  /** Keeping the layer at position `|kept|` moves it into the kept prefix. */
  lemma Regroup(kept: seq<Layer>, l: Layer, rest: seq<Layer>)
    ensures kept + ([l] + rest) == (kept + [l]) + rest
  {
  }

  /** A Leaflet map as the component uses it. */
  class LeafletMap {
    var lat: real
    var lon: real
    var zoom: int
    var layers: seq<Layer>
    var removed: bool

    /** `L.map(container, { center, zoom })`. */
    constructor (lat: real, lon: real, zoom: int)
      ensures this.lat == lat && this.lon == lon && this.zoom == zoom
      ensures layers == [] && !removed
    {
      this.lat, this.lon, this.zoom := lat, lon, zoom;
      layers := [];
      removed := false;
    }

    /** `layer.addTo(map)`. */
    method AddLayer(l: Layer)
      modifies this
      ensures layers == old(layers) + [l]
      ensures lat == old(lat) && lon == old(lon) && zoom == old(zoom) && removed == old(removed)
    {
      layers := layers + [l];
    }

    /** `map.removeLayer(layer)` for the layer at position `k`. */
    method RemoveLayerAt(k: nat)
      requires k < |layers|
      modifies this
      ensures layers == old(layers)[..k] + old(layers)[k + 1..]
      ensures lat == old(lat) && lon == old(lon) && zoom == old(zoom) && removed == old(removed)
    {
      layers := layers[..k] + layers[k + 1..];
    }

    /** `map.flyTo([lat, lon], zoom)`, at its destination. */
    method FlyTo(lat: real, lon: real, zoom: int)
      modifies this
      ensures this.lat == lat && this.lon == lon && this.zoom == zoom
      ensures layers == old(layers) && removed == old(removed)
    {
      this.lat, this.lon, this.zoom := lat, lon, zoom;
    }

    /** The `eachLayer` loop of lines 138-142: every marker and circle is
      removed, the tile layers stay, in their order. */
    method RemoveOverlays()
      modifies this
      ensures layers == WithoutOverlays(old(layers))
      ensures lat == old(lat) && lon == old(lon) && zoom == old(zoom) && removed == old(removed)
    {
      var rest := layers;
      var kept: seq<Layer> := [];
      while rest != []
        invariant layers == kept + rest
        invariant WithoutOverlays(old(layers)) == kept + WithoutOverlays(rest)
        invariant lat == old(lat) && lon == old(lon) && zoom == old(zoom) && removed == old(removed)
        decreases |rest|
      {
        var l := rest[0];
        var tail := rest[1..];
        assert rest == [l] + tail;
        if IsOverlay(l) {
          SpliceOut(kept, l, tail);
          RemoveLayerAt(|kept|);
        } else {
          Regroup(kept, l, tail);
          Regroup(kept, l, WithoutOverlays(tail));
          kept := kept + [l];
        }
        rest := tail;
      }
    }

    /** `map.remove()`. */
    method Remove()
      modifies this
      ensures removed
      ensures lat == old(lat) && lon == old(lon) && zoom == old(zoom) && layers == old(layers)
    {
      removed := true;
    }
  }

  /** The component's refs and whether its last effect run returned the
      cleanup function (it does not when the container is missing). */
  class MapComponent {
    var hasContainer: bool
    var mapRef: LeafletMap?
    var cleanupArmed: bool

    ghost predicate Valid()
      reads this
    {
      mapRef != null ==> cleanupArmed
    }

    /** First render: no map, no cleanup pending. */
    constructor (hasContainer: bool)
      ensures Valid() && this.hasContainer == hasContainer && mapRef == null && !cleanupArmed
    {
      this.hasContainer := hasContainer;
      mapRef := null;
      cleanupArmed := false;
    }

    /** The effect body of lines 21-203 for props (lat, lon, accuracy). A
      map is built only when `mapRef` is null; otherwise the existing one
      flies to the new view and has its overlays replaced. */
    method Effect(lat: real, lon: real, accuracy: real)
      modifies this, mapRef
      ensures hasContainer == old(hasContainer) && cleanupArmed == hasContainer
      ensures !hasContainer ==> mapRef == old(mapRef) && (old(mapRef) != null ==> unchanged(old(mapRef)))
      ensures hasContainer && old(mapRef) == null ==>
        && mapRef != null && fresh(mapRef) && !mapRef.removed
        && mapRef.layers == InitialLayers(lat, lon, accuracy)
        && mapRef.lat == lat && mapRef.lon == lon && mapRef.zoom == ZoomLevel(accuracy)
      ensures hasContainer && old(mapRef) != null ==>
        && mapRef == old(mapRef) && mapRef.removed == old(mapRef.removed)
        && mapRef.layers == WithoutOverlays(old(mapRef.layers)) + Overlays(lat, lon, accuracy)
        && mapRef.lat == lat && mapRef.lon == lon && mapRef.zoom == ZoomLevel(accuracy)
    {
      if !hasContainer {
        cleanupArmed := false;
        return;
      }
      if mapRef == null {
        var m := new LeafletMap(lat, lon, ZoomLevel(accuracy));
        m.AddLayer(Tiles(Imagery));
        m.AddLayer(Tiles(Labels));
        m.AddLayer(Marker(lat, lon));
        m.AddLayer(Circle(lat, lon, accuracy));
        m.AddLayer(Circle(lat, lon, 20.0));
        mapRef := m;
      } else {
        var m := mapRef;
        m.FlyTo(lat, lon, ZoomLevel(accuracy));
        m.RemoveOverlays();
        m.AddLayer(Marker(lat, lon));
        m.AddLayer(Circle(lat, lon, accuracy));
        m.AddLayer(Circle(lat, lon, 20.0));
      }
      cleanupArmed := true;
    }

    /** The cleanup of lines 196-202: remove the map and reset the ref. */
    method Cleanup()
      modifies this, mapRef
      ensures mapRef == null && !cleanupArmed && hasContainer == old(hasContainer)
      ensures old(mapRef) != null ==> old(mapRef).removed && old(mapRef).layers == old(mapRef.layers)
    {
      if mapRef != null {
        mapRef.Remove();
        mapRef := null;
      }
      cleanupArmed := false;
    }

    /** What React does when the props change, as the component is
      written: it runs the previous run's cleanup, then the effect. The
      cleanup has just nulled `mapRef`, so the map is always torn down and
      a fresh one built; the update branch of the effect is never taken. */
    method PropsChange(lat: real, lon: real, accuracy: real)
      requires Valid()
      modifies this, mapRef
      ensures Valid()
      ensures old(mapRef) != null ==> old(mapRef).removed
      ensures hasContainer == old(hasContainer)
      ensures mapRef != null ==> fresh(mapRef) && !mapRef.removed && mapRef.layers == InitialLayers(lat, lon, accuracy)
      ensures mapRef != null ==> mapRef.lat == lat && mapRef.lon == lon && mapRef.zoom == ZoomLevel(accuracy)
      ensures hasContainer ==> mapRef != null
    {
      if cleanupArmed {
        Cleanup();
      }
      Effect(lat, lon, accuracy);
    }

    /** The lifecycle the component's comments describe ("initialize map
      only once", "update existing map"): cleanup only on unmount, so a
      props change keeps the map and swaps its overlays, which leaves the
      layers initialisation at the new position would have built. */
    method PropsChangeKeepingMap(lat: real, lon: real, accuracy: real)
      requires Valid() && hasContainer && mapRef != null
      requires exists lat0, lon0, acc0 :: mapRef.layers == InitialLayers(lat0, lon0, acc0)
      modifies this, mapRef
      ensures Valid()
      ensures mapRef == old(mapRef) && mapRef.removed == old(mapRef.removed)
      ensures mapRef.layers == InitialLayers(lat, lon, accuracy)
      ensures mapRef.lat == lat && mapRef.lon == lon && mapRef.zoom == ZoomLevel(accuracy)
    {
      ghost var lat0, lon0, acc0 :| mapRef.layers == InitialLayers(lat0, lon0, acc0);
      UpdateMatchesInitial(lat0, lon0, acc0, lat, lon, accuracy);
      Effect(lat, lon, accuracy);
    }

    /** Unmounting runs the pending cleanup, if any. */
    method Unmount()
      requires Valid()
      modifies this, mapRef
      ensures Valid() && mapRef == null
      ensures old(mapRef) != null ==> old(mapRef).removed
    {
      if cleanupArmed {
        Cleanup();
      }
    }
  }

  /** The component as written, mounted at (0, 0) and then given (1, 1):
    the first map is removed and a second one is in its place, although
    the effect's update branch was meant to keep the first. */
  method PropsChangeRebuildsMap() returns (first: LeafletMap, second: LeafletMap)
    ensures first != second
    ensures first.removed && !second.removed
    ensures second.layers == InitialLayers(1.0, 1.0, 5.0)
    ensures second.lat == 1.0 && second.lon == 1.0 && second.zoom == 19
  {
    var c := new MapComponent(true);
    c.Effect(0.0, 0.0, 5.0);
    first := c.mapRef;
    c.PropsChange(1.0, 1.0, 5.0);
    second := c.mapRef;
  }
}
