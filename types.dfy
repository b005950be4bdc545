/** Optional values, standing for Swift's `T?`. */
module Optional {

  datatype Option<+T> = None | Some(value: T)
}

/** Map coordinates as the controller handles them (`CLLocationCoordinate2D`). */
module Geo {

  /** A latitude/longitude pair in degrees. The controller never checks ranges, so neither does the model. */
  datatype Coordinate = Coordinate(latitude: real, longitude: real)
}
