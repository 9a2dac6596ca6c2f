/** The map widget as the page sees it: its camera, the markers and circles
    added to it, and the "locate me" button of its custom control. */
module MapView {
  import opened Values

  datatype Camera = Camera(center: LatLng, zoom: int)

  datatype Marker =
    | LocationMarker(at: LatLng, name: string, id: Id)  // popup with an "Enter AR" button
    | UserMarker(at: LatLng)                            // popup "You are here"

  datatype Circle = Circle(center: LatLng, radius: Num)

  datatype LocateButton = LocateButton(disabled: bool, title: string)

  /** One instance created by `L.map`; `serial` tells instances apart. */
  datatype MapWidget = MapWidget(
    serial: nat,
    camera: Camera,
    markers: seq<Marker>,
    circles: seq<Circle>,
    button: Option<LocateButton>)

  /** What the browser's geolocation reports after `locate`: a position with
      its accuracy and the zoom Leaflet would fit it to, or an error. */
  datatype LocateOutcome =
    | Found(at: LatLng, accuracy: Num, fitZoom: int)
    | Failed(message: string)

  /** `[41.149819, -8.628316]` */
  const DefaultCenter: LatLng := LatLng(Num(41149819), Num(-8628316))
  const DefaultZoom: int := 13
  /** `[51.505, -0.09]`, where a failed locate leaves the map. */
  const FallbackCenter: LatLng := LatLng(Num(51505000), Num(-90000))
  const FallbackZoom: int := 13
  /** `maxZoom` passed to `locate`. */
  const LocateMaxZoom: int := 14
  const CenterOnMe: string := "Center on Me"
  const LocationUnavailable: string := "Location unavailable"

  /** The button the control creates: enabled, titled "Center on Me". */
  const InitialButton: LocateButton := LocateButton(false, CenterOnMe)

  /** JavaScript truthiness of the saved zoom: `null` and `0` are falsy. */
  predicate ZoomTruthy(z: Option<int>) {
    z.Some? && z.value != 0
  }

  /** `mapCenter || default` and `mapZoom || 13`. */
  function StartCamera(savedCenter: Option<LatLng>, savedZoom: Option<int>): (c: Camera)
    ensures c.zoom != 0
    ensures savedCenter.Some? ==> c.center == savedCenter.value
    ensures ZoomTruthy(savedZoom) ==> c.zoom == savedZoom.value
  {
    Camera(if savedCenter.Some? then savedCenter.value else DefaultCenter,
           if ZoomTruthy(savedZoom) then savedZoom.value else DefaultZoom)
  }

  /** The saved center and zoom after `goToAR`: those of the live map when
      there is one, otherwise what was saved before. */
  function SaveCamera(live: Option<MapWidget>, savedCenter: Option<LatLng>, savedZoom: Option<int>)
    : (saved: (Option<LatLng>, Option<int>))
    ensures live.None? ==> saved == (savedCenter, savedZoom)
    ensures live.Some? ==> saved.0 == Some(live.value.camera.center) && saved.1 == Some(live.value.camera.zoom)
  {
    if live.Some? then (Some(live.value.camera.center), Some(live.value.camera.zoom))
    else (savedCenter, savedZoom)
  }

  function MarkerFor(loc: Location): Marker {
    LocationMarker(loc.coords, loc.name, loc.id)
  }

  /** One marker per record, in the order of the records. */
  function LocationMarkers(locs: seq<Location>): (ms: seq<Marker>)
    ensures |ms| == |locs|
    ensures forall i :: 0 <= i < |locs| ==> ms[i] == MarkerFor(locs[i])
  {
    if locs == [] then []
    else LocationMarkers(locs[..|locs| - 1]) + [MarkerFor(locs[|locs| - 1])]
  }

  /** The widget `renderMapView` leaves behind: a new instance at the start
      camera with one marker per record, no circles, and the locate control. */
  function FreshMap(serial: nat, camera: Camera, locs: seq<Location>): MapWidget {
    MapWidget(serial, camera, LocationMarkers(locs), [], Some(InitialButton))
  }

  function Min(a: int, b: int): int {
    if a <= b then a else b
  }

  /** A saved center is always used; a saved zoom is used unless it is 0. */
  lemma StartCameraUsesSaved(c: LatLng, z: int)
    ensures StartCamera(Some(c), Some(z)) == Camera(c, if z == 0 then DefaultZoom else z)
    ensures StartCamera(None, None) == Camera(DefaultCenter, DefaultZoom)
    ensures StartCamera(Some(c), None) == Camera(c, DefaultZoom)
  {
  }

  /** Leaving a live map for AR and rendering the map again starts from the
      camera the live map had, except that zoom 0 falls back to 13. */
  lemma ArVisitRestoresCamera(m: MapWidget, savedCenter: Option<LatLng>, savedZoom: Option<int>)
    ensures var (c, z) := SaveCamera(Some(m), savedCenter, savedZoom);
      StartCamera(c, z) == if m.camera.zoom != 0 then m.camera else Camera(m.camera.center, DefaultZoom)
  {
  }
}
