/**
 * The three-key record the controller keeps in `UserDefaults.standard`:
 * writing it (`saveLocationToDefaults`) and reading it back
 * (`retrieveSavedLocationFromDefaults`), including the zero sentinel: a
 * record whose stored latitude or longitude reads as 0 (a missing key reads
 * as 0) does not restore its location; its address is still loaded.
 */
module Persistence {
  import opened Optional
  import opened Geo

  /** A value held by the key-value store: the controller stores doubles and one string. */
  datatype StoredValue = Number(number: real) | Text(text: string)

  /** The key-value store, keyed by name. */
  type Store = map<string, StoredValue>

  const LatitudeKey: string := "savedLatitude"
  const LongitudeKey: string := "savedLongitude"
  const AddressKey: string := "savedAddress"

  /** `double(forKey:)`: the number under `key`, or 0 when the key is missing or holds no number. */
  function DoubleForKey(store: Store, key: string): (number: real)
    ensures key !in store ==> number == 0.0
    ensures key in store && store[key].Number? ==> number == store[key].number
    ensures number != 0.0 ==> key in store && store[key] == Number(number)
  {
    if key in store && store[key].Number? then store[key].number else 0.0
  }

  /** `string(forKey:)`: the string under `key`, or nil when the key is missing or holds no string. */
  function StringForKey(store: Store, key: string): (text: Option<string>)
    ensures text.Some? <==> key in store && store[key].Text?
    ensures text.Some? ==> store[key] == Text(text.value)
  {
    if key in store && store[key].Text? then Some(store[key].text) else None
  }

  /**
   * The store after `saveLocationToDefaults(location:address:)`: the three
   * keys are overwritten together, with the coordinate's two numbers and the
   * address, and every other key is left as it was.
   */
  function Saved(store: Store, location: Coordinate, address: string): (updated: Store)
    ensures updated.Keys == store.Keys + {LatitudeKey, LongitudeKey, AddressKey}
    ensures DoubleForKey(updated, LatitudeKey) == location.latitude
    ensures DoubleForKey(updated, LongitudeKey) == location.longitude
    ensures StringForKey(updated, AddressKey) == Some(address)
    ensures forall key :: key in store && !IsRecordKey(key) ==> updated[key] == store[key]
  {
    store[LatitudeKey := Number(location.latitude)]
         [LongitudeKey := Number(location.longitude)]
         [AddressKey := Text(address)]
  }

  /** What `retrieveSavedLocationFromDefaults` takes from the store. */
  datatype Restoration = Restoration(location: Option<Coordinate>, address: Option<string>)

  /**
   * The address is read unconditionally; a location only when both stored
   * coordinates are non-zero (a missing key reads as 0).
   */
  function Restore(store: Store): (restored: Restoration)
    ensures restored.address == StringForKey(store, AddressKey)
    ensures restored.location.Some? ==>
              && restored.location.value.latitude != 0.0 && restored.location.value.longitude != 0.0
              && LatitudeKey in store && store[LatitudeKey] == Number(restored.location.value.latitude)
              && LongitudeKey in store && store[LongitudeKey] == Number(restored.location.value.longitude)
    ensures restored.location.None? ==>
              DoubleForKey(store, LatitudeKey) == 0.0 || DoubleForKey(store, LongitudeKey) == 0.0
  {
    var latitude := DoubleForKey(store, LatitudeKey);
    var longitude := DoubleForKey(store, LongitudeKey);
    Restoration(
      if latitude != 0.0 && longitude != 0.0 then Some(Coordinate(latitude, longitude)) else None,
      StringForKey(store, AddressKey))
  }

  predicate IsRecordKey(key: string)
  {
    key == LatitudeKey || key == LongitudeKey || key == AddressKey
  }

  /**
   * Save then restore: the address always comes back; the location comes back
   * exactly when neither coordinate is 0, and is lost otherwise.
   */
  lemma RestoreAfterSave(store: Store, location: Coordinate, address: string)
    ensures Restore(Saved(store, location, address)).address == Some(address)
    ensures Restore(Saved(store, location, address)).location
         == if location.latitude != 0.0 && location.longitude != 0.0 then Some(location) else None
  {
  }

  /** The sentinel gap: a saved location on the equator or the prime meridian does not survive a restore. */
  lemma RoundTripIff(store: Store, location: Coordinate, address: string)
    ensures Restore(Saved(store, location, address)).location == Some(location)
        <==> location.latitude != 0.0 && location.longitude != 0.0
  {
    RestoreAfterSave(store, location, address);
  }

  /** A store that never held the record restores neither a location nor an address. */
  lemma RestoreMissingRecord(store: Store)
    requires LatitudeKey !in store && LongitudeKey !in store && AddressKey !in store
    ensures Restore(store) == Restoration(None, None)
  {
  }
}
