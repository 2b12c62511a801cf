/**
 * The airspace record that the generator writes, the server serves and the
 * client renders (the `AirspaceShape` interface of src/services/airspaceService.ts),
 * and the decimal rendering of the record index used in ids and names.
 */
module Airspace {
  import opened Wrappers

  datatype ShapeKind = Circle | Oval | Rectangle | Track

  datatype Center = Center(latitude: real, longitude: real, altitude: real)

  /** The optional-field bag of shape dimensions, as the JSON record carries it. */
  datatype Dimensions = Dimensions(
    radius: Option<real>,
    semiMajorAxis: Option<real>,
    semiMinorAxis: Option<real>,
    rotation: Option<real>,
    width: Option<real>,
    height: Option<real>,
    length: Option<real>)

  const NO_DIMENSIONS := Dimensions(None, None, None, None, None, None, None)

  datatype DimensionKey = Radius | SemiMajorAxis | SemiMinorAxis | Rotation | Width | Height | Length

  /** The keys present in a dimensions object. */
  function Keys(d: Dimensions): set<DimensionKey>
  {
    (if d.radius.Some? then {Radius} else {})
    + (if d.semiMajorAxis.Some? then {SemiMajorAxis} else {})
    + (if d.semiMinorAxis.Some? then {SemiMinorAxis} else {})
    + (if d.rotation.Some? then {Rotation} else {})
    + (if d.width.Some? then {Width} else {})
    + (if d.height.Some? then {Height} else {})
    + (if d.length.Some? then {Length} else {})
  }

  datatype AirspaceRecord = AirspaceRecord(
    id: string,
    name: string,
    kind: ShapeKind,
    center: Center,
    dimensions: Dimensions,
    color: string,
    opacity: real,
    outline: bool,
    outlineColor: string)

  /** The file's top-level object `{ airspaces }`. */
  datatype Dataset = Dataset(airspaces: seq<AirspaceRecord>)

  ghost predicate UniqueIds(airspaces: seq<AirspaceRecord>)
  {
    forall j, k :: 0 <= j < k < |airspaces| ==> airspaces[j].id != airspaces[k].id
  }

  predicate IsDigit(c: char)
  {
    '0' <= c <= '9'
  }

  function DigitChar(d: nat): (c: char)
    requires d < 10
    ensures IsDigit(c)
  {
    ('0' as int + d) as char
  }

  function DigitValue(c: char): (d: nat)
    requires IsDigit(c)
    ensures d < 10
  {
    c as int - '0' as int
  }

  /** A number in a template literal (`${i}`): its decimal digits, without leading zeros. */
  function NatToString(n: nat): (s: string)
    ensures |s| > 0
    ensures forall k :: 0 <= k < |s| ==> IsDigit(s[k])
  {
    if n < 10 then [DigitChar(n)] else NatToString(n / 10) + [DigitChar(n % 10)]
  }

  /** The value of a string of decimal digits. */
  function ParseDecimal(s: string): nat
    requires forall k :: 0 <= k < |s| ==> IsDigit(s[k])
  {
    if s == [] then 0 else ParseDecimal(s[..|s| - 1]) * 10 + DigitValue(s[|s| - 1])
  }

  lemma {:induction false} ParseNatToString(n: nat)
    ensures ParseDecimal(NatToString(n)) == n
  {
    var s := NatToString(n);
    if n < 10 {
      assert s[..0] == [];
    } else {
      ParseNatToString(n / 10);
      assert s[..|s| - 1] == NatToString(n / 10);
    }
  }

  /** Distinct numbers print differently. */
  lemma NatToStringInjective(m: nat, n: nat)
    requires NatToString(m) == NatToString(n)
    ensures m == n
  {
    ParseNatToString(m);
    ParseNatToString(n);
  }
}
