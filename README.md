# LocationTracker: saved destination and address formatting

A Dafny model of the logic inside the LocationTracker view controller
(`LocationTracker2/ViewController.swift`). The controller lets the user pick a
destination on a map with a long press and commit it with a button. It then
reverse-geocodes the destination into an address and persists both in
`UserDefaults`. On every batch of position fixes it raises an "arrival"
(a local notification and an alert) when the last fix is within 10 metres of
the destination.

The model has four modules:

- `Address` (`address.dfy`) covers `formatAddress(from:)`. It is a pure
  function over the five optional placemark fields. The lemmas compare it with
  a reference view in which the address is the concatenation of one piece per
  field. They cover field order, the ", " separator after each of the first
  four fields, the country without a separator, emptiness and length.
- `Persistence` (`persistence.dfy`) covers the three-key record
  `savedLatitude` / `savedLongitude` / `savedAddress` in a key-value store.
  `Saved` is what `saveLocationToDefaults` writes and `Restore` is what
  `retrieveSavedLocationFromDefaults` reads back. A missing key reads as 0. A record with a zero
  latitude or longitude does not restore its location; its address is still
  loaded. The lemmas state the round trip,
  including the sentinel gap.
- `Tracker` (`tracker.dfy`) covers the controller's state as a class:
  - the fields `savedLocation`, `savedAddress` and `selectedCoordinate`;
  - the store;
  - what the distance label shows;
  - a count of arrivals raised;
  - the geocode requests still in flight.

  Each event handler is a method. Its `modifies` clause names the fields it
  may change, and its `ensures` clauses give their new values. The
  geodesic distance is a parameter `distance(current, saved)`. The geocoder's
  answer comes in as an event `GeocodeCompleted(requested, result, …)`, where
  the result is an error, an empty placemark list or a list of placemarks.
- `Scenarios` (`scenarios.dfy`) holds client methods. Each one drives a
  controller through a sequence of events and states what the handlers'
  contracts imply:
  - a stale geocode pairs an old address with a newer coordinate;
  - a failed geocode keeps the earlier record;
  - saving and then relaunching restores the destination only off the zero
    lines;
  - arrivals are level-triggered.

Three behaviours of the code shape the model. A late geocode result is
applied to whatever destination is live when it arrives
(`ViewController.swift` lines 153-163). Arrival fires on every batch whose
last fix is within 10 m (lines 139-145). A record with a zero latitude or
longitude does not restore its location (line 208); its address is still
loaded (line 206).

## Model

| member | source | states |
|---|---|---|
| `Address.FormatAddress` | LocationTracker2/ViewController.swift:175-193 | `formatAddress` as five `Append` steps to "", one per `if let` (a present field adds its value and its suffix, an absent one adds nothing). The result is the concatenation, in the order name, locality, administrative area, postal code, country, of one piece per field: nothing for an absent field, value + ", " for a present one of the first four, the bare value for the country |
| `Address.FormatAddressFieldOrder` | LocationTracker2/ViewController.swift:175-193 | For each field, the address is exactly the pieces of the earlier fields, then that field's piece, then the pieces of the later fields |
| `Address.FormatAddressLength` | LocationTracker2/ViewController.swift:175-193 | The length, counted in Unicode scalars, is the sum over present fields of the value's length plus 2 for each of the first four |
| `Address.FormatAddressAllAbsent` | LocationTracker2/ViewController.swift:176-192 | With every field absent the address is "" |
| `Address.FormatAddressEmptyIff` | LocationTracker2/ViewController.swift:175-193 | The address is empty if and only if the first four fields are absent and the country is absent or empty |
| `Address.FormatAddressStartsWithName` | LocationTracker2/ViewController.swift:177-179 | A present name opens the address, followed by ", " |
| `Address.FormatAddressEndsWithCountry` | LocationTracker2/ViewController.swift:189-191 | A present country closes the address with no separator after it |
| `Address.FormatAddressTrailingSeparatorWithoutCountry` | LocationTracker2/ViewController.swift:177-192 | With no country but some other field present, the address ends in ", " |
| `Persistence.DoubleForKey` | LocationTracker2/ViewController.swift:204-205 | `double(forKey:)`: a key holding a number reads as that number, a missing key reads as 0, and a non-zero reading is a number actually stored under the key |
| `Persistence.StringForKey` | LocationTracker2/ViewController.swift:206 | `string(forKey:)`: a string is read if and only if the key holds one, and it is the stored string |
| `Persistence.Saved` | LocationTracker2/ViewController.swift:195-200 | `saveLocationToDefaults`: the three keys are written together, reading back as the latitude, the longitude and the address, and every other key is left as it was |
| `Persistence.Restore` | LocationTracker2/ViewController.swift:203-209 | The reads of `retrieveSavedLocationFromDefaults`: the address is whatever string is stored; a restored location has both coordinates non-zero and equal to the stored numbers; no location is restored only when a stored coordinate reads as 0 |
| `Persistence.RestoreAfterSave` | LocationTracker2/ViewController.swift:195-209 | After a save, restoring always yields the saved address, and yields the saved location if both coordinates are non-zero and no location otherwise |
| `Persistence.RoundTripIff` | LocationTracker2/ViewController.swift:202-209 | Save then restore returns the same location if and only if neither coordinate is 0 (the sentinel gap) |
| `Persistence.RestoreMissingRecord` | LocationTracker2/ViewController.swift:202-208 | A store without the three keys restores neither a location nor an address: missing keys read as 0 and as nil |
| `Tracker.DistanceLabel` | LocationTracker2/ViewController.swift:239-245 | The label is "N/A" if and only if no address is saved; otherwise it shows the given distance with the saved address |
| `Tracker.ViewController.constructor` | LocationTracker2/ViewController.swift:14-18 | A new controller has no saved location, address or selection, shows "Distance: N/A", has raised no arrival and has no geocode in flight (the initial label text is set at line 80) |
| `Tracker.ViewController.HandleLongPress` | LocationTracker2/ViewController.swift:97-106 | Only a press in the `.began` state replaces the selected coordinate; nothing else changes |
| `Tracker.ViewController.SaveSelectedLocation` | LocationTracker2/ViewController.swift:108-114 | With no selection nothing changes; otherwise the selection becomes the saved location and a geocode of it is started; the selection is kept |
| `Tracker.ViewController.SaveLocation` | LocationTracker2/ViewController.swift:149-153 | The saved location is replaced at once, before any geocode result, and a geocode of it is put in flight; address and store are untouched |
| `Tracker.ViewController.GeocodeCompleted` | LocationTracker2/ViewController.swift:153-172 | The request is retired. On an error or an empty placemark list, address, store and label are unchanged. Otherwise the address becomes the first placemark's formatted address. The store receives the saved location current at completion time with that address. The label is refreshed when a current position is known |
| `Tracker.ViewController.SaveLocationToDefaults` | LocationTracker2/ViewController.swift:195-200 | The store becomes `Saved(old store, location, address)` |
| `Tracker.ViewController.RetrieveSavedLocationFromDefaults` | LocationTracker2/ViewController.swift:202-218 | The address is loaded unconditionally. The location is replaced only when both stored coordinates are non-zero, and is kept otherwise. The label is refreshed only when a location was restored and a current position is known |
| `Tracker.ViewController.UpdateDistanceLabel` | LocationTracker2/ViewController.swift:239-245 | The label becomes `DistanceLabel(saved address, distance)` |
| `Tracker.ViewController.DidUpdateLocations` | LocationTracker2/ViewController.swift:133-147 | An empty batch changes nothing. Otherwise only the last fix is used. With no saved location nothing fires. With one, the label is refreshed and an arrival is raised (and counted) if and only if the distance is at most 10 m |
| `Scenarios.StaleGeocodeResult` | LocationTracker2/ViewController.swift:149-170 | Select A, select B, then A's geocode completes with a current position known: the store pairs B's coordinate with A's address, A's address becomes `savedAddress`, and the distance label shows the distance to B under A's address |
| `Scenarios.FailedGeocodeKeepsEarlierRecord` | LocationTracker2/ViewController.swift:149-163 | A geocoded destination A, then B whose geocode fails: B is the live destination, but the store still holds A's coordinates with A's address |
| `Scenarios.RelaunchRestores` | LocationTracker2/ViewController.swift:97-218 | Press, save, geocode, relaunch: the address comes back, and the location comes back if and only if neither coordinate is 0 |
| `Scenarios.ArrivalBeforeAddress` | LocationTracker2/ViewController.swift:133-147 | Before any geocode completes, the label reads N/A while arrival is already decided on distance alone |
| `Scenarios.PressNotBeganSavesNothing` | LocationTracker2/ViewController.swift:97-114 | A press not in `.began` followed by save leaves no saved location and starts no geocode |
| `Scenarios.ArrivalRepeatsInsideRadius` | LocationTracker2/ViewController.swift:139-145 | Two consecutive batches inside the radius raise two arrivals (level-triggered) |
| `Scenarios.DistanceSeriesArrivals` | LocationTracker2/ViewController.swift:139-145 | Distances 50, 20, 9, 8, 15, 5 m raise three arrivals |
| `Scenarios.OnlyLastFixCounts` | LocationTracker2/ViewController.swift:134-142 | An in-range fix that is not the last of its batch raises nothing |

## Left out

- View setup, annotations, the save button's visibility, the current-location and saved-location labels, and alert presentation are UI. Arrival's alert and notification together are counted in `arrivals`.
- Location-manager authorization and start-up, and notification permission and delivery, are calls into the operating system. "Notify" is the `arrivals` counter.
- `CLLocation.distance(from:)` is a floating-point geodesic computation in a platform library. It is the parameter `distance`, and no property of it (such as non-negativity) is assumed.
- The geocoder's networking and the `[weak self]` capture are not modelled. A completion is a discrete event, and a completion that arrives after the controller is gone is not modelled.
- `String(format:)` rendering of distances and coordinates is floating-point formatting. The label keeps the number itself (`DistanceText.Shown`).
- Coordinates and distances are `real`. NaN, infinities and rounding of `Double` are not modelled.
- `UserDefaults` type coercions are not modelled. A number stored under the address key does not read as a string, and a string under a coordinate key does not read as a number; the controller writes neither.
- `print` logging is I/O and has no effect on state.
- The other `CLPlacemark` fields are not read by the controller.
- `viewDidLoad` ordering is not modelled: the constructor and `RetrieveSavedLocationFromDefaults` are separate steps.
- Strings are sequences of Unicode scalars. Swift's `String.count`, which counts grapheme clusters, is not modelled, so `FormatAddressLength` counts scalars (a field starting with a combining mark would merge with the preceding space in Swift's count).
- `GeocodeCompleted` and `RetrieveSavedLocationFromDefaults`: their `current` parameter stands for `locationManager.location` (lines 166 and 212), the platform's last known position. It is an unconstrained input and is not tied to the last fix passed to `DidUpdateLocations`; every contract holds for any value of it.
