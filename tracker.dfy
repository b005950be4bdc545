/**
 * The saved-destination state of the location-tracking view controller:
 * selecting a point with a long press, committing it, the asynchronous
 * reverse-geocode completion, persisting to and restoring from the
 * key-value store, and the arrival decision on each batch of position fixes.
 *
 * The geodesic distance is a parameter (`distance(current, saved)` in metres,
 * as `CLLocation.distance(from:)` reports it), and the geocoder's completion
 * is an input event.
 */
module Tracker {
  import opened Optional
  import opened Geo
  import opened Address
  import opened Persistence

  /** Arrival fires when the last fix is within this many metres of the saved location. */
  const ArrivalRadius: real := 10.0

  /** The states of a `UILongPressGestureRecognizer`. */
  datatype GestureState = Possible | Began | Changed | Ended | Cancelled | Failed

  /** What the reverse geocoder hands its completion: an error, or a (possibly empty) placemark list. */
  datatype GeocodeResult = GeocodeError | Placemarks(placemarks: seq<Placemark>)

  /** The distance label: "Distance: N/A", or the distance in metres with the saved address below it. */
  datatype DistanceText = NotAvailable | Shown(meters: real, address: string)

  /** `updateDistanceLabel(distance:)`: the label shows the distance only when an address is saved. */
  function DistanceLabel(savedAddress: Option<string>, distance: real): (text: DistanceText)
    ensures text == NotAvailable <==> savedAddress == None
    ensures text.Shown? ==> text.meters == distance && savedAddress == Some(text.address)
  {
    match savedAddress
    case None => NotAvailable
    case Some(address) => Shown(distance, address)
  }

  class ViewController {
    /** The committed destination (`savedLocation`). */
    var savedLocation: Option<Coordinate>
    /** The destination's formatted address (`savedAddress`). */
    var savedAddress: Option<string>
    /** The point chosen by the last long press, not yet committed (`selectedCoordinate`). */
    var selectedCoordinate: Option<Coordinate>
    /** The contents of `UserDefaults.standard`. */
    var defaults: Store
    /** What the distance label currently shows. */
    var distanceLabel: DistanceText
    /** Arrivals raised so far; each is one notification request and one alert. */
    var arrivals: nat
    /** Locations handed to the reverse geocoder whose completion has not yet run. */
    var pendingGeocodes: multiset<Coordinate>

    /** A geocode is only ever requested by `saveLocation`, which first sets `savedLocation`; nothing clears it. */
    ghost predicate Valid()
      reads this
    {
      pendingGeocodes != multiset{} ==> savedLocation.Some?
    }

    /** A freshly loaded controller over the store's persisted contents. */
    constructor (stored: Store)
      ensures Valid()
      ensures savedLocation == None && savedAddress == None && selectedCoordinate == None
      ensures defaults == stored && distanceLabel == NotAvailable && arrivals == 0
      ensures pendingGeocodes == multiset{}
    {
      savedLocation := None;
      savedAddress := None;
      selectedCoordinate := None;
      defaults := stored;
      distanceLabel := NotAvailable;
      arrivals := 0;
      pendingGeocodes := multiset{};
    }

    /** `handleLongPress`: only the `.began` state selects the pressed coordinate. */
    method HandleLongPress(state: GestureState, coordinate: Coordinate)
      requires Valid()
      modifies this`selectedCoordinate
      ensures Valid()
      ensures selectedCoordinate == if state == Began then Some(coordinate) else old(selectedCoordinate)
    {
      if state == Began {
        selectedCoordinate := Some(coordinate);
      }
    }

    /**
     * `saveLocation(location:)`: the destination is replaced at once and a
     * reverse geocode of it is started; the address and the store wait for
     * its completion.
     */
    method SaveLocation(location: Coordinate)
      requires Valid()
      modifies this`savedLocation, this`pendingGeocodes
      ensures Valid()
      ensures savedLocation == Some(location)
      ensures pendingGeocodes == old(pendingGeocodes) + multiset{location}
    {
      savedLocation := Some(location);
      pendingGeocodes := pendingGeocodes + multiset{location};
    }

    /**
     * `saveSelectedLocation`: commits the selected coordinate; does nothing
     * when none has been selected. The selection itself is kept.
     */
    method SaveSelectedLocation()
      requires Valid()
      modifies this`savedLocation, this`pendingGeocodes
      ensures Valid()
      ensures old(selectedCoordinate) == None ==>
                savedLocation == old(savedLocation) && pendingGeocodes == old(pendingGeocodes)
      ensures old(selectedCoordinate) != None ==>
                savedLocation == old(selectedCoordinate)
                && pendingGeocodes == old(pendingGeocodes) + multiset{old(selectedCoordinate).value}
    {
      if selectedCoordinate == None {
        return;
      }
      var coordinate := selectedCoordinate.value;
      SaveLocation(coordinate);
    }

    /**
     * The completion of the reverse geocode of `requested`. On an error or an
     * empty placemark list only the request is retired. Otherwise the first
     * placemark's address becomes `savedAddress`, and the store receives the
     * `savedLocation` of NOW (which a later selection may have replaced)
     * together with that address. When the platform knows a current position,
     * the distance label is refreshed against the saved location.
     */
    method GeocodeCompleted(requested: Coordinate, result: GeocodeResult,
                            current: Option<Coordinate>, distance: (Coordinate, Coordinate) -> real)
      requires Valid()
      requires requested in pendingGeocodes
      modifies this`pendingGeocodes, this`savedAddress, this`defaults, this`distanceLabel
      ensures Valid()
      ensures pendingGeocodes == old(pendingGeocodes) - multiset{requested}
      ensures result.GeocodeError? || result.placemarks == [] ==>
                savedAddress == old(savedAddress) && defaults == old(defaults)
                && distanceLabel == old(distanceLabel)
      ensures result.Placemarks? && result.placemarks != [] ==>
                var address := FormatAddress(result.placemarks[0]);
                && savedAddress == Some(address)
                && defaults == Saved(old(defaults), savedLocation.value, address)
                && distanceLabel == (if current.Some?
                                     then Shown(distance(current.value, savedLocation.value), address)
                                     else old(distanceLabel))
    {
      pendingGeocodes := pendingGeocodes - multiset{requested};
      if result.GeocodeError? {
        return;
      }
      if result.placemarks == [] {
        return;
      }
      var placemark := result.placemarks[0];
      savedAddress := Some(FormatAddress(placemark));
      if savedLocation.Some? {
        var location := savedLocation.value;
        var address := savedAddress.value;
        SaveLocationToDefaults(location, address);
        if current.Some? {
          UpdateDistanceLabel(distance(current.value, location));
        }
      }
    }

    /** `saveLocationToDefaults(location:address:)`: writes the three keys of the record. */
    method SaveLocationToDefaults(location: Coordinate, address: string)
      requires Valid()
      modifies this`defaults
      ensures Valid()
      ensures defaults == Saved(old(defaults), location, address)
    {
      defaults := defaults[LatitudeKey := Number(location.latitude)];
      defaults := defaults[LongitudeKey := Number(location.longitude)];
      defaults := defaults[AddressKey := Text(address)];
    }

    /**
     * `retrieveSavedLocationFromDefaults`: the address is loaded
     * unconditionally; the location only when both stored coordinates are
     * non-zero, and then the distance label is refreshed if the platform knows
     * a current position.
     */
    method RetrieveSavedLocationFromDefaults(current: Option<Coordinate>, distance: (Coordinate, Coordinate) -> real)
      requires Valid()
      modifies this`savedLocation, this`savedAddress, this`distanceLabel
      ensures Valid()
      ensures savedAddress == Restore(defaults).address
      ensures savedLocation == if Restore(defaults).location.Some? then Restore(defaults).location else old(savedLocation)
      ensures distanceLabel == if Restore(defaults).location.Some? && current.Some?
                               then DistanceLabel(savedAddress, distance(current.value, savedLocation.value))
                               else old(distanceLabel)
    {
      var latitude := DoubleForKey(defaults, LatitudeKey);
      var longitude := DoubleForKey(defaults, LongitudeKey);
      savedAddress := StringForKey(defaults, AddressKey);
      if latitude != 0.0 && longitude != 0.0 {
        savedLocation := Some(Coordinate(latitude, longitude));
        if current.Some? {
          UpdateDistanceLabel(distance(current.value, savedLocation.value));
        }
      }
    }

    /** `updateDistanceLabel(distance:)`. */
    method UpdateDistanceLabel(meters: real)
      requires Valid()
      modifies this`distanceLabel
      ensures Valid()
      ensures distanceLabel == DistanceLabel(savedAddress, meters)
    {
      if savedAddress.None? {
        distanceLabel := NotAvailable;
      } else {
        distanceLabel := Shown(meters, savedAddress.value);
      }
    }

    /**
     * `locationManager(_:didUpdateLocations:)`: an empty batch is ignored;
     * otherwise only the last fix counts. With a saved location the distance
     * label is refreshed, and an arrival is raised on EVERY batch whose last
     * fix lies within the radius, however many came before it.
     */
    method DidUpdateLocations(locations: seq<Coordinate>, distance: (Coordinate, Coordinate) -> real)
      returns (arrived: bool)
      requires Valid()
      modifies this`distanceLabel, this`arrivals
      ensures Valid()
      ensures arrived <==> locations != [] && savedLocation.Some?
                           && distance(locations[|locations| - 1], savedLocation.value) <= ArrivalRadius
      ensures arrivals == old(arrivals) + (if arrived then 1 else 0)
      ensures distanceLabel == if locations != [] && savedLocation.Some?
                               then DistanceLabel(savedAddress, distance(locations[|locations| - 1], savedLocation.value))
                               else old(distanceLabel)
    {
      arrived := false;
      if locations == [] {
        return;
      }
      var currentLocation := locations[|locations| - 1];
      if savedLocation.Some? {
        var meters := distance(currentLocation, savedLocation.value);
        UpdateDistanceLabel(meters);
        if meters <= ArrivalRadius {
          arrivals := arrivals + 1;
          arrived := true;
        }
      }
    }
  }
}
