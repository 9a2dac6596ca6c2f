/** The module-level state of the page (`leafletMap`, `locations`,
    `mapCenter`, `mapZoom`) together with what the browser holds for it (the
    hash, the installed listener, the rendered content), and the handlers
    that change it. Each handler runs to completion as one method call. */
module Page {
  import opened Values
  import opened Routing
  import opened MapView

  /** The content of `#app`: nothing yet, or one rendered view. */
  datatype Screen = Blank | Rendered(view: View)

  class App {
    var locations: seq<Location>
    var leafletMap: Option<MapWidget>
    var mapCenter: Option<LatLng>
    var mapZoom: Option<int>
    /** `location.hash`. */
    var hash: string
    /** Whether `router` is installed as the `hashchange` listener. */
    var listening: bool
    var screen: Screen
    /** Map instances created by `L.map` and removed by `remove()`. */
    var mapsCreated: nat
    var mapsRemoved: nat

    /** Every map instance but the live one has been removed, and the live
        one is the latest created. */
    ghost predicate Valid()
      reads this
    {
      mapsCreated == mapsRemoved + (if leafletMap.Some? then 1 else 0) &&
      (leafletMap.Some? ==> leafletMap.value.serial == mapsCreated) &&
      (screen == Rendered(MapShown) ==> leafletMap.Some?)
    }

    /** The loaded records, the saved camera, the hash and the listener are
        as they were. */
    twostate predicate SessionKept()
      reads this
    {
      locations == old(locations) && mapCenter == old(mapCenter) &&
      mapZoom == old(mapZoom) && hash == old(hash) && listening == old(listening)
    }

    /** No map instance was created or removed and the live one is as it was. */
    twostate predicate MapKept()
      reads this
    {
      leafletMap == old(leafletMap) &&
      mapsCreated == old(mapsCreated) && mapsRemoved == old(mapsRemoved)
    }

    /** The effect of dispatching route `r`: its view is rendered; the map
        route replaces any previous instance by exactly one new one at the
        start camera; the other routes leave the map alone. */
    twostate predicate Routed(r: Route)
      reads this
    {
      screen == Rendered(Resolve(r, locations)) &&
      if r == MapRoute then
        mapsCreated == old(mapsCreated) + 1 &&
        mapsRemoved == old(mapsRemoved) + (if old(leafletMap).Some? then 1 else 0) &&
        leafletMap == Some(FreshMap(mapsCreated, StartCamera(mapCenter, mapZoom), locations))
      else
        MapKept()
    }

    /** The state when the script starts: nothing loaded, no map, nothing
        saved, no listener. */
    constructor (initialHash: string)
      ensures Valid()
      ensures locations == [] && leafletMap == None && mapCenter == None && mapZoom == None
      ensures hash == initialHash && !listening && screen == Blank
      ensures mapsCreated == 0 && mapsRemoved == 0
    {
      locations := [];
      leafletMap := None;
      mapCenter := None;
      mapZoom := None;
      hash := initialHash;
      listening := false;
      screen := Blank;
      mapsCreated := 0;
      mapsRemoved := 0;
    }

    method RenderNotFound()
      requires Valid()
      modifies this
      ensures Valid()
      ensures screen == Rendered(NotFoundView)
      ensures SessionKept() && MapKept()
    {
      screen := Rendered(NotFoundView);
    }

    /** The AR view of the first record with that id, or not found. The map
        instance is not removed. */
    method RenderArView(id: string)
      requires Valid()
      modifies this
      ensures Valid()
      ensures screen == Rendered(ArViewFor(locations, id))
      ensures SessionKept() && MapKept()
    {
      match FindIndex(locations, id)
      case Some(i) =>
        screen := Rendered(ArView(locations[i]));
      case None =>
        RenderNotFound();
    }

    /** One marker per record is added to the live map. */
    method AddLocationMarkers()
      requires leafletMap.Some?
      modifies this
      ensures leafletMap ==
        Some(old(leafletMap).value.(markers := old(leafletMap).value.markers + LocationMarkers(locations)))
      ensures SessionKept()
      ensures screen == old(screen) && mapsCreated == old(mapsCreated) && mapsRemoved == old(mapsRemoved)
    {
      var i := 0;
      assert old(leafletMap).value.markers + LocationMarkers(locations[..0]) == old(leafletMap).value.markers;
      while i < |locations|
        invariant 0 <= i <= |locations|
        invariant leafletMap ==
          Some(old(leafletMap).value.(markers := old(leafletMap).value.markers + LocationMarkers(locations[..i])))
        invariant SessionKept()
        invariant screen == old(screen) && mapsCreated == old(mapsCreated) && mapsRemoved == old(mapsRemoved)
      {
        assert locations[..i + 1][..i] == locations[..i];
        assert LocationMarkers(locations[..i + 1]) == LocationMarkers(locations[..i]) + [MarkerFor(locations[i])];
        var m := leafletMap.value;
        ghost var base := old(leafletMap).value.markers;
        assert m.markers + [MarkerFor(locations[i])] == base + LocationMarkers(locations[..i + 1]);
        leafletMap := Some(m.(markers := m.markers + [MarkerFor(locations[i])]));
        i := i + 1;
      }
      assert locations[..i] == locations;
    }

    /** Tears down any previous map, creates exactly one new one at the
        saved camera (or the defaults), adds the markers and the control. */
    method RenderMapView()
      requires Valid()
      modifies this
      ensures Valid()
      ensures Routed(MapRoute)
      ensures SessionKept()
    {
      screen := Rendered(MapShown);
      if leafletMap.Some? {
        leafletMap := None;
        mapsRemoved := mapsRemoved + 1;
      }
      mapsCreated := mapsCreated + 1;
      leafletMap := Some(MapWidget(mapsCreated, StartCamera(mapCenter, mapZoom), [], [], None));
      AddLocationMarkers();
      assert [] + LocationMarkers(locations) == LocationMarkers(locations);
      leafletMap := Some(leafletMap.value.(button := Some(InitialButton)));
    }

    /** `router`: renders the view the current hash routes to. */
    method Router()
      requires Valid()
      modifies this
      ensures Valid()
      ensures Routed(RouteOf(hash))
      ensures SessionKept()
    {
      match RouteOf(hash)
      case MapRoute =>
        RenderMapView();
      case ArRoute(id) =>
        RenderArView(id);
      case NotFoundRoute =>
        RenderNotFound();
    }

    /** `init`: a failed load shows not found and installs no listener; a
        successful one stores the records, routes once, then listens. */
    method Init(load: Result<seq<Location>, string>)
      requires Valid()
      modifies this
      ensures Valid()
      ensures mapCenter == old(mapCenter) && mapZoom == old(mapZoom) && hash == old(hash)
      ensures load.Err? ==>
        screen == Rendered(NotFoundView) && MapKept() &&
        locations == old(locations) && listening == old(listening)
      ensures load.Ok? ==>
        locations == load.value && listening && Routed(RouteOf(hash))
    {
      match load
      case Ok(records) =>
        locations := records;
        Router();
        listening := true;
      case Err(_) =>
        RenderNotFound();
    }

    /** Assigns `location.hash`; the browser fires `hashchange` when the hash
        actually changes, and `router` runs if it is installed. */
    method SetHash(newHash: string)
      requires Valid()
      modifies this
      ensures Valid()
      ensures hash == newHash
      ensures locations == old(locations) && mapCenter == old(mapCenter) &&
              mapZoom == old(mapZoom) && listening == old(listening)
      ensures if newHash != old(hash) && listening then Routed(RouteOf(newHash))
              else screen == old(screen) && MapKept()
    {
      var changed := newHash != hash;
      hash := newHash;
      if changed && listening {
        Router();
      }
    }

    /** `goToAR`: saves the live map's center and zoom when a map exists,
        then sets the hash to `#/ar/<id>`. That hash never routes to the
        map, so no map is created or removed. */
    method GoToAr(id: Id)
      requires Valid()
      modifies this
      ensures Valid()
      ensures (mapCenter, mapZoom) == SaveCamera(old(leafletMap), old(mapCenter), old(mapZoom))
      ensures hash == ArHash(IdText(id))
      ensures locations == old(locations) && listening == old(listening) && MapKept()
      ensures if hash != old(hash) && listening then screen == Rendered(Resolve(RouteOf(hash), locations))
              else screen == old(screen)
    {
      if leafletMap.Some? {
        mapCenter := Some(leafletMap.value.camera.center);
        mapZoom := Some(leafletMap.value.camera.zoom);
      }
      ArHashRoundTrip(IdText(id));
      SetHash(ArHash(IdText(id)));
    }

    /** The "Enter AR" button in the popup of marker `k` calls `goToAR` with
        that marker's record id. */
    method EnterAr(k: nat)
      requires Valid() && leafletMap.Some?
      requires k < |leafletMap.value.markers| && leafletMap.value.markers[k].LocationMarker?
      modifies this
      ensures Valid()
      ensures mapCenter == Some(old(leafletMap).value.camera.center)
      ensures mapZoom == Some(old(leafletMap).value.camera.zoom)
      ensures hash == ArHash(IdText(old(leafletMap).value.markers[k].id))
      ensures locations == old(locations) && listening == old(listening) && MapKept()
      ensures if hash != old(hash) && listening then screen == Rendered(Resolve(RouteOf(hash), locations))
              else screen == old(screen)
    {
      GoToAr(leafletMap.value.markers[k].id);
    }

    /** The user pans or zooms the live map (Leaflet's own interaction). */
    method MoveMap(c: Camera)
      requires Valid() && leafletMap.Some?
      modifies this
      ensures Valid()
      ensures leafletMap == Some(old(leafletMap).value.(camera := c))
      ensures SessionKept() && screen == old(screen)
      ensures mapsCreated == old(mapsCreated) && mapsRemoved == old(mapsRemoved)
    {
      leafletMap := Some(leafletMap.value.(camera := c));
    }

    /** `locateUser` with the outcome its `once` handlers receive. On success
        Leaflet centres on the position at zoom at most 14, a marker and an
        accuracy circle are added and the button is enabled as "Center on
        Me"; on error the view falls back to `[51.505, -0.09]` at zoom 13
        and the button is disabled as "Location unavailable". */
    method LocateUser(outcome: LocateOutcome)
      requires Valid() && leafletMap.Some?
      modifies this
      ensures Valid()
      ensures SessionKept() && screen == old(screen)
      ensures mapsCreated == old(mapsCreated) && mapsRemoved == old(mapsRemoved)
      ensures var m := old(leafletMap).value;
        match outcome
        case Found(at, accuracy, fitZoom) =>
          leafletMap == Some(m.(camera := Camera(at, Min(fitZoom, LocateMaxZoom)),
                                markers := m.markers + [UserMarker(at)],
                                circles := m.circles + [Circle(at, accuracy)],
                                button := if m.button.Some? then Some(LocateButton(false, CenterOnMe)) else None))
        case Failed(_) =>
          leafletMap == Some(m.(camera := Camera(FallbackCenter, FallbackZoom),
                                button := if m.button.Some? then Some(LocateButton(true, LocationUnavailable)) else None))
    {
      var m := leafletMap.value;
      match outcome
      case Found(at, accuracy, fitZoom) =>
        var button := if m.button.Some? then Some(LocateButton(false, CenterOnMe)) else None;
        leafletMap := Some(m.(camera := Camera(at, Min(fitZoom, LocateMaxZoom)),
                              markers := m.markers + [UserMarker(at)],
                              circles := m.circles + [Circle(at, accuracy)],
                              button := button));
      case Failed(_) =>
        var button := if m.button.Some? then Some(LocateButton(true, LocationUnavailable)) else None;
        leafletMap := Some(m.(camera := Camera(FallbackCenter, FallbackZoom), button := button));
    }

    /** Entering AR from a marker and navigating back to `#` reopens a single
        new map at the camera the user left, zoom 0 excepted. */
    method ArVisitKeepsCamera(k: nat)
      requires Valid() && listening && leafletMap.Some?
      requires k < |leafletMap.value.markers| && leafletMap.value.markers[k].LocationMarker?
      modifies this
      ensures Valid() && screen == Rendered(MapShown) && leafletMap.Some?
      ensures mapsCreated == old(mapsCreated) + 1 && mapsRemoved == old(mapsRemoved) + 1
      ensures leafletMap.value.camera ==
        if old(leafletMap).value.camera.zoom != 0 then old(leafletMap).value.camera
        else Camera(old(leafletMap).value.camera.center, DefaultZoom)
    {
      EnterAr(k);
      SetHash("#");
    }
  }
}
