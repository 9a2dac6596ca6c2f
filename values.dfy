/** Values shared by the router and the page state of the map/AR front end. */
module Values {

  datatype Option<+T> = None | Some(value: T)

  /** Outcome of an operation that may fail with an error message. */
  datatype Result<+T, +E> = Ok(value: T) | Err(error: E)

  /** A JavaScript number the page only stores, compares and passes on
      (latitudes, longitudes, accuracy radii). It is an opaque label: its
      tag only tells values apart and no arithmetic is ever done on it.
      The two literal points of the page are written with the tag equal
      to the value in millionths of a degree. */
  datatype Num = Num(tag: int)

  /** A latitude/longitude pair as Leaflet takes and returns it. */
  datatype LatLng = LatLng(lat: Num, lng: Num)

  /** The `id` field of a record of `models.json` as parsed from JSON: a
      string, or an integral number. */
  datatype Id = StringId(text: string) | NumberId(value: int)

  /** One record of `models.json`. */
  datatype Location = Location(id: Id, name: string, coords: LatLng, modelUrl: string)
}
