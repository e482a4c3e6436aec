/** Optional values: the model of a JavaScript value that may be `null` or `undefined`. */
module Options {
  datatype Option<+T> = None | Some(value: T)
}

/** The `{ lat, lng }` coordinate records that every part of the game passes around. */
module Coords {
  /** A coordinate in degrees. Equality is exact field equality, as in the code. */
  datatype LatLng = LatLng(lat: real, lng: real)

  /** A great-circle distance function: whatever it computes, it never returns a negative value. */
  ghost predicate NonNegativeDistance(distance: (LatLng, LatLng) -> real)
  {
    forall a: LatLng, b: LatLng :: distance(a, b) >= 0.0
  }
}
