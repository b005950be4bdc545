/**
 * The address string the controller builds from a reverse-geocoded placemark
 * (`formatAddress(from:)`): the present fields in a fixed order, each of the
 * first four followed by ", ", the country last and without a separator.
 */
module Address {
  import opened Optional

  /** The five `CLPlacemark` fields the controller reads, each possibly absent. */
  datatype Placemark = Placemark(
    name: Option<string>,
    locality: Option<string>,
    administrativeArea: Option<string>,
    postalCode: Option<string>,
    country: Option<string>)

  const Separator: string := ", "

  /** `address += value + suffix` when the field is present; `address` unchanged otherwise. */
  function Append(address: string, field: Option<string>, suffix: string): (extended: string)
  {
    match field
    case None => address
    case Some(value) => address + value + suffix
  }

  /**
   * The controller's `formatAddress(from:)`: five straight-line appends to an
   * initially empty string, which yield the five fields' pieces in order.
   */
  function FormatAddress(placemark: Placemark): (address: string)
    ensures address == Concat(Pieces(placemark))
  {
    var start := "";
    var withName := Append(start, placemark.name, Separator);
    var withLocality := Append(withName, placemark.locality, Separator);
    var withArea := Append(withLocality, placemark.administrativeArea, Separator);
    var withPostalCode := Append(withArea, placemark.postalCode, Separator);
    var address := Append(withPostalCode, placemark.country, "");
    var pieces := Pieces(placemark);
    assert withName == pieces[0];
    assert withLocality == withName + pieces[1];
    assert withArea == withLocality + pieces[2];
    assert withPostalCode == withArea + pieces[3];
    assert address == withPostalCode + pieces[4];
    ConcatFive(pieces[0], pieces[1], pieces[2], pieces[3], pieces[4]);
    address
  }

  // ---------------------------------------------------------------------------
  // Reference view: the address as the concatenation of one piece per field.
  // ---------------------------------------------------------------------------

  /** What one field contributes: nothing when absent, its value and `suffix` when present. */
  function Piece(field: Option<string>, suffix: string): (piece: string)
  {
    if field.Some? then field.value + suffix else ""
  }

  /** The pieces of the five fields, in the order name, locality, administrative area, postal code, country. */
  function Pieces(placemark: Placemark): (pieces: seq<string>)
    ensures |pieces| == 5
  {
    [ Piece(placemark.name, Separator),
      Piece(placemark.locality, Separator),
      Piece(placemark.administrativeArea, Separator),
      Piece(placemark.postalCode, Separator),
      Piece(placemark.country, "") ]
  }

  function Concat(parts: seq<string>): (joined: string)
  {
    if parts == [] then "" else parts[0] + Concat(parts[1..])
  }

  predicate IsPrefix(prefix: string, s: string)
  {
    |prefix| <= |s| && s[..|prefix|] == prefix
  }

  predicate IsSuffix(suffix: string, s: string)
  {
    |suffix| <= |s| && s[|s| - |suffix|..] == suffix
  }

  // ---------------------------------------------------------------------------
  // Lemmas
  // ---------------------------------------------------------------------------

  /** Concatenation distributes over sequence append. */
  lemma {:induction false} ConcatAppend(left: seq<string>, right: seq<string>)
    ensures Concat(left + right) == Concat(left) + Concat(right)
  {
    if left == [] {
      assert left + right == right;
    } else {
      assert (left + right)[1..] == left[1..] + right;
      ConcatAppend(left[1..], right);
    }
  }

  /** A concatenation is empty exactly when each of its parts is. */
  lemma {:induction false} ConcatEmpty(parts: seq<string>)
    ensures Concat(parts) == "" <==> forall i :: 0 <= i < |parts| ==> parts[i] == ""
  {
    if parts != [] {
      ConcatEmpty(parts[1..]);
      assert forall i :: 1 <= i < |parts| ==> parts[i] == parts[1..][i - 1];
    }
  }

  /** Splitting a concatenation at any part: everything before it, the part, everything after it. */
  lemma ConcatSplit(parts: seq<string>, i: nat)
    requires i < |parts|
    ensures Concat(parts) == Concat(parts[..i]) + parts[i] + Concat(parts[i + 1..])
  {
    assert parts == parts[..i] + parts[i..];
    ConcatAppend(parts[..i], parts[i..]);
    assert parts[i..][1..] == parts[i + 1..];
  }

  /** Concatenating five parts, unfolded. */
  lemma ConcatFive(p0: string, p1: string, p2: string, p3: string, p4: string)
    ensures Concat([p0, p1, p2, p3, p4]) == p0 + p1 + p2 + p3 + p4
  {
    assert Concat([p4]) == p4 by { assert [p4][1..] == []; }
    assert Concat([p3, p4]) == p3 + p4 by { assert [p3, p4][1..] == [p4]; }
    assert Concat([p2, p3, p4]) == p2 + (p3 + p4) by { assert [p2, p3, p4][1..] == [p3, p4]; }
    assert Concat([p1, p2, p3, p4]) == p1 + (p2 + (p3 + p4)) by {
      assert [p1, p2, p3, p4][1..] == [p2, p3, p4];
    }
    assert [p0, p1, p2, p3, p4][1..] == [p1, p2, p3, p4];
  }

  /**
   * Field order: the piece of field `i` is preceded by exactly the pieces of
   * the fields before it and followed by exactly the pieces of the fields
   * after it.
   */
  lemma FormatAddressFieldOrder(placemark: Placemark, i: nat)
    requires i < 5
    ensures FormatAddress(placemark)
         == Concat(Pieces(placemark)[..i]) + Pieces(placemark)[i] + Concat(Pieces(placemark)[i + 1..])
  {
    ConcatSplit(Pieces(placemark), i);
  }

  /** Only present fields contribute: the length is the sum over present fields of value plus separator. */
  lemma FormatAddressLength(placemark: Placemark)
    ensures |FormatAddress(placemark)|
         == (if placemark.name.Some? then |placemark.name.value| + 2 else 0)
          + (if placemark.locality.Some? then |placemark.locality.value| + 2 else 0)
          + (if placemark.administrativeArea.Some? then |placemark.administrativeArea.value| + 2 else 0)
          + (if placemark.postalCode.Some? then |placemark.postalCode.value| + 2 else 0)
          + (if placemark.country.Some? then |placemark.country.value| else 0)
  {
  }

  /** With every field absent the address is empty. */
  lemma FormatAddressAllAbsent()
    ensures FormatAddress(Placemark(None, None, None, None, None)) == ""
  {
  }

  /**
   * The address is empty exactly when the first four fields are absent and the
   * country is absent or empty: a present first-four field always leaves at
   * least its separator behind.
   */
  lemma FormatAddressEmptyIff(placemark: Placemark)
    ensures FormatAddress(placemark) == ""
        <==> placemark.name.None? && placemark.locality.None? && placemark.administrativeArea.None?
             && placemark.postalCode.None? && (placemark.country.None? || placemark.country.value == "")
  {
    ConcatEmpty(Pieces(placemark));
    assert Pieces(placemark)[0] == Piece(placemark.name, Separator);
  }

  /** A present name starts the address, followed by the separator. */
  lemma FormatAddressStartsWithName(placemark: Placemark)
    requires placemark.name.Some?
    ensures IsPrefix(placemark.name.value + Separator, FormatAddress(placemark))
  {
    FormatAddressFieldOrder(placemark, 0);
  }

  /** A present country ends the address, with no separator after it. */
  lemma FormatAddressEndsWithCountry(placemark: Placemark)
    requires placemark.country.Some?
    ensures IsSuffix(placemark.country.value, FormatAddress(placemark))
  {
    FormatAddressFieldOrder(placemark, 4);
  }

  /**
   * Without a country the address keeps the separator of the last present
   * field: "Main St, Springfield, " rather than "Main St, Springfield".
   */
  lemma FormatAddressTrailingSeparatorWithoutCountry(placemark: Placemark)
    requires placemark.country.None?
    requires placemark.name.Some? || placemark.locality.Some?
          || placemark.administrativeArea.Some? || placemark.postalCode.Some?
    ensures IsSuffix(Separator, FormatAddress(placemark))
  {
  }
}
