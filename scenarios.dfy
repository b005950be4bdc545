/**
 * Event sequences on the controller, stated as what a caller can conclude
 * from the controller's contracts alone.
 */
module Scenarios {
  import opened Optional
  import opened Geo
  import opened Address
  import opened Persistence
  import opened Tracker

  /**
   * Two selections in a row, then the FIRST geocode completes while a current
   * position is known: the record in the store pairs the second coordinate
   * with the first coordinate's address, the first coordinate's address
   * becomes `savedAddress`, and the distance label shows the distance to the
   * second destination under the first destination's address.
   */
  method StaleGeocodeResult(first: Coordinate, second: Coordinate, placemark: Placemark,
                            current: Coordinate, distance: (Coordinate, Coordinate) -> real)
    returns (storedLatitude: real, storedLongitude: real, storedAddress: Option<string>,
             savedAddress: Option<string>, shown: DistanceText)
    ensures storedLatitude == second.latitude && storedLongitude == second.longitude
    ensures storedAddress == Some(FormatAddress(placemark))
    ensures savedAddress == Some(FormatAddress(placemark))
    ensures shown == Shown(distance(current, second), FormatAddress(placemark))
  {
    var controller := new ViewController(map[]);
    controller.SaveLocation(first);
    controller.SaveLocation(second);
    controller.GeocodeCompleted(first, Placemarks([placemark]), Some(current), distance);
    storedLatitude := DoubleForKey(controller.defaults, LatitudeKey);
    storedLongitude := DoubleForKey(controller.defaults, LongitudeKey);
    storedAddress := StringForKey(controller.defaults, AddressKey);
    savedAddress := controller.savedAddress;
    shown := controller.distanceLabel;
  }

  /**
   * A destination saved and geocoded, then a second one whose geocode fails:
   * the second becomes the live destination, but the store still holds the
   * first destination with its address.
   */
  method FailedGeocodeKeepsEarlierRecord(first: Coordinate, second: Coordinate, placemark: Placemark,
                                         failure: GeocodeResult, distance: (Coordinate, Coordinate) -> real)
    returns (live: Option<Coordinate>, storedLatitude: real, storedLongitude: real, storedAddress: Option<string>)
    requires failure == GeocodeError || failure == Placemarks([])
    ensures live == Some(second)
    ensures storedLatitude == first.latitude && storedLongitude == first.longitude
    ensures storedAddress == Some(FormatAddress(placemark))
  {
    var controller := new ViewController(map[]);
    controller.SaveLocation(first);
    controller.GeocodeCompleted(first, Placemarks([placemark]), None, distance);
    controller.SaveLocation(second);
    controller.GeocodeCompleted(second, failure, None, distance);
    live := controller.savedLocation;
    storedLatitude := DoubleForKey(controller.defaults, LatitudeKey);
    storedLongitude := DoubleForKey(controller.defaults, LongitudeKey);
    storedAddress := StringForKey(controller.defaults, AddressKey);
  }

  /**
   * Long press, save, successful geocode, then a relaunch over the same store:
   * the address always comes back, the destination only when neither of its
   * coordinates is 0.
   */
  method RelaunchRestores(location: Coordinate, placemark: Placemark, distance: (Coordinate, Coordinate) -> real)
    returns (restoredLocation: Option<Coordinate>, restoredAddress: Option<string>)
    ensures restoredAddress == Some(FormatAddress(placemark))
    ensures restoredLocation == if location.latitude != 0.0 && location.longitude != 0.0 then Some(location) else None
  {
    var controller := new ViewController(map[]);
    controller.HandleLongPress(Began, location);
    controller.SaveSelectedLocation();
    controller.GeocodeCompleted(location, Placemarks([placemark]), None, distance);
    RestoreAfterSave(map[], location, FormatAddress(placemark));
    var relaunched := new ViewController(controller.defaults);
    relaunched.RetrieveSavedLocationFromDefaults(None, distance);
    restoredLocation := relaunched.savedLocation;
    restoredAddress := relaunched.savedAddress;
  }

  /**
   * Pressing and saving before any geocode has completed: the destination is
   * live, the address is still unknown, so the distance label reads N/A while
   * arrival is already decided on distance alone.
   */
  method ArrivalBeforeAddress(location: Coordinate, fix: Coordinate, distance: (Coordinate, Coordinate) -> real)
    returns (shown: DistanceText, arrived: bool)
    ensures shown == NotAvailable
    ensures arrived <==> distance(fix, location) <= ArrivalRadius
  {
    var controller := new ViewController(map[]);
    controller.HandleLongPress(Began, location);
    controller.SaveSelectedLocation();
    arrived := controller.DidUpdateLocations([fix], distance);
    shown := controller.distanceLabel;
  }

  /** A long press that is not in its `.began` state selects nothing, so saving afterwards saves nothing. */
  method PressNotBeganSavesNothing(state: GestureState, coordinate: Coordinate)
    returns (saved: Option<Coordinate>, pending: multiset<Coordinate>)
    requires state != Began
    ensures saved == None && pending == multiset{}
  {
    var controller := new ViewController(map[]);
    controller.HandleLongPress(state, coordinate);
    controller.SaveSelectedLocation();
    saved := controller.savedLocation;
    pending := controller.pendingGeocodes;
  }

  /**
   * Level-triggered arrival: two batches in a row whose last fixes both lie
   * within the radius raise two arrivals, not one.
   */
  method ArrivalRepeatsInsideRadius(saved: Coordinate, first: Coordinate, second: Coordinate,
                                    distance: (Coordinate, Coordinate) -> real)
    returns (arrivals: nat)
    requires distance(first, saved) <= ArrivalRadius && distance(second, saved) <= ArrivalRadius
    ensures arrivals == 2
  {
    var controller := new ViewController(map[]);
    controller.SaveLocation(saved);
    var _ := controller.DidUpdateLocations([first], distance);
    var _ := controller.DidUpdateLocations([second], distance);
    arrivals := controller.arrivals;
  }

  /**
   * Distances 50, 20, 9, 8, 15 and 5 metres in turn raise three arrivals
   * (at 9, 8 and 5): every fix inside the radius fires, with no re-arming.
   */
  method DistanceSeriesArrivals() returns (arrivals: nat)
    ensures arrivals == 3
  {
    var distance := (fix: Coordinate, saved: Coordinate) => fix.latitude - saved.latitude;
    var saved := Coordinate(0.0, 0.0);
    var controller := new ViewController(map[]);
    controller.SaveLocation(saved);
    var _ := controller.DidUpdateLocations([Coordinate(50.0, 0.0)], distance);
    var _ := controller.DidUpdateLocations([Coordinate(20.0, 0.0)], distance);
    var _ := controller.DidUpdateLocations([Coordinate(9.0, 0.0)], distance);
    var _ := controller.DidUpdateLocations([Coordinate(8.0, 0.0)], distance);
    var _ := controller.DidUpdateLocations([Coordinate(15.0, 0.0)], distance);
    var _ := controller.DidUpdateLocations([Coordinate(5.0, 0.0)], distance);
    arrivals := controller.arrivals;
  }

  /** Within one batch only the last fix matters: earlier fixes inside the radius raise nothing. */
  method OnlyLastFixCounts(saved: Coordinate, early: Coordinate, last: Coordinate,
                           distance: (Coordinate, Coordinate) -> real)
    returns (arrived: bool)
    requires distance(early, saved) <= ArrivalRadius && distance(last, saved) > ArrivalRadius
    ensures !arrived
  {
    var controller := new ViewController(map[]);
    controller.SaveLocation(saved);
    arrived := controller.DidUpdateLocations([early, last], distance);
  }
}
