/**
 * The offline generator (`generateAirspaceDataset` in generateAirspaceData.js).
 * Every `Math.random()` call of one loop iteration is a field of a `Draws`
 * value, an arbitrary real in [0, 1).
 */
module Generator {
  import opened Wrappers
  import opened JsMath
  import opened Airspace

  const AIRSPACE_COUNT := 10000
  const AIRSPACE_TYPES := ["CTR", "TMA", "CTA", "FIR", "UIR"]
  const SHAPE_TYPES := [Circle, Oval, Rectangle, Track]
  const COLORS := ["#FF4444", "#44FF44", "#4444FF", "#FFFF44", "#FF44FF", "#44FFFF", "#FF8844", "#8844FF"]
  const ID_PREFIX := "airspace_"

  datatype Location = Location(name: string, lat: real, lon: real)

  const MAJOR_LOCATIONS := [
    Location("London", 51.5074, -0.1278),
    Location("NewYork", 40.7128, -74.0060),
    Location("Tokyo", 35.6762, 139.6503),
    Location("Paris", 48.8566, 2.3522),
    Location("Sydney", -33.8688, 151.2093),
    Location("Moscow", 55.7558, 37.6176),
    Location("Beijing", 39.9042, 116.4074),
    Location("Dubai", 25.2048, 55.2708),
    Location("Singapore", 1.3521, 103.8198),
    Location("LosAngeles", 34.0522, -118.2437),
    Location("Chicago", 41.8781, -87.6298),
    Location("Toronto", 43.6532, -79.3832),
    Location("MexicoCity", 19.4326, -99.1332),
    Location("SaoPaulo", -23.5505, -46.6333),
    Location("BuenosAires", -34.6118, -58.3960),
    Location("CapeTown", -33.9249, 18.4241),
    Location("Cairo", 30.0444, 31.2357),
    Location("Mumbai", 19.0760, 72.8777),
    Location("Delhi", 28.7041, 77.1025),
    Location("Bangkok", 13.7563, 100.5018)
  ]

  /**
   * The random draws of one iteration. `lat` and `lon` are the two coordinate
   * draws of whichever placement branch runs; `location` is used only near a
   * city; `dimension2` and `rotation` only by the three-field shapes.
   */
  datatype Draws = Draws(
    airspaceType: real, shapeType: real, color: real, placement: real, location: real,
    lat: real, lon: real, altitude: real, opacity: real,
    dimension1: real, dimension2: real, rotation: real)

  predicate IsDraw(r: real)
  {
    0.0 <= r < 1.0
  }

  predicate ValidDraws(d: Draws)
  {
    && IsDraw(d.airspaceType) && IsDraw(d.shapeType) && IsDraw(d.color)
    && IsDraw(d.placement) && IsDraw(d.location) && IsDraw(d.lat) && IsDraw(d.lon)
    && IsDraw(d.altitude) && IsDraw(d.opacity)
    && IsDraw(d.dimension1) && IsDraw(d.dimension2) && IsDraw(d.rotation)
  }

  lemma ProductSign(a: real, b: real)
    requires a >= 0.0 && b > 0.0
    ensures a * b >= 0.0
    ensures a > 0.0 ==> a * b > 0.0
  {
  }

  /** `Math.floor(r * n)`: the entry a draw picks from a list of n entries. */
  function PickIndex(r: real, n: nat): (k: nat)
    requires IsDraw(r)
    requires n > 0
    ensures k < n
    ensures k as real <= r * (n as real) < k as real + 1.0
  {
    var x := r * (n as real);
    assert 0.0 <= x < n as real by {
      ProductSign(r, n as real);
      ProductSign(1.0 - r, n as real);
      assert (n as real) - x == (1.0 - r) * (n as real);
    }
    x.Floor
  }

  /** `Math.max(lo, Math.min(hi, x))` */
  function Clamp(x: real, lo: real, hi: real): (r: real)
    requires lo <= hi
    ensures lo <= r <= hi
    ensures lo <= x <= hi ==> r == x
    ensures x < lo ==> r == lo
    ensures x > hi ==> r == hi
  {
    Max(lo, Min(hi, x))
  }

  datatype Position = Position(lat: real, lon: real)

  /** The placement before clamping: 30% near a major city, otherwise anywhere. */
  function RawPosition(d: Draws): Position
    requires ValidDraws(d)
  {
    if d.placement < 0.3 then
      var location := MAJOR_LOCATIONS[PickIndex(d.location, |MAJOR_LOCATIONS|)];
      Position(location.lat + (d.lat - 0.5) * 10.0, location.lon + (d.lon - 0.5) * 10.0)
    else
      Position((d.lat - 0.5) * 180.0, (d.lon - 0.5) * 360.0)
  }

  /** The `dimensions` object the `switch` builds for a shape type. */
  function ShapeDimensions(kind: ShapeKind, d: Draws): Dimensions
  {
    match kind
    case Circle =>
      NO_DIMENSIONS.(radius := Some(d.dimension1 * 50000.0 + 5000.0))
    case Oval =>
      NO_DIMENSIONS.(semiMajorAxis := Some(d.dimension1 * 60000.0 + 10000.0),
                     semiMinorAxis := Some(d.dimension2 * 40000.0 + 5000.0),
                     rotation := Some(d.rotation * 360.0))
    case Rectangle =>
      NO_DIMENSIONS.(width := Some(d.dimension1 * 80000.0 + 10000.0),
                     height := Some(d.dimension2 * 60000.0 + 10000.0),
                     rotation := Some(d.rotation * 360.0))
    case Track =>
      NO_DIMENSIONS.(length := Some(d.dimension1 * 100000.0 + 20000.0),
                     width := Some(d.dimension2 * 20000.0 + 5000.0),
                     rotation := Some(d.rotation * 360.0))
  }

  function AirspaceId(i: nat): string
  {
    ID_PREFIX + NatToString(i)
  }

  /** The record the i-th iteration pushes, given its draws. */
  function GeneratedAirspace(i: nat, d: Draws): AirspaceRecord
    requires ValidDraws(d)
  {
    var airspaceType := AIRSPACE_TYPES[PickIndex(d.airspaceType, |AIRSPACE_TYPES|)];
    var shapeType := SHAPE_TYPES[PickIndex(d.shapeType, |SHAPE_TYPES|)];
    var color := COLORS[PickIndex(d.color, |COLORS|)];
    var raw := RawPosition(d);
    AirspaceRecord(
      AirspaceId(i),
      airspaceType + "_" + NatToString(i),
      shapeType,
      Center(Clamp(raw.lat, -85.0, 85.0), Clamp(raw.lon, -180.0, 180.0), d.altitude * 8000.0 + 500.0),
      ShapeDimensions(shapeType, d),
      color,
      0.2 + d.opacity * 0.6,
      true,
      "#FFFFFF")
  }

  ghost predicate AllValid(draws: seq<Draws>)
  {
    forall k :: 0 <= k < |draws| ==> ValidDraws(draws[k])
  }

  /** The whole dataset for a run whose k-th iteration used `draws[k]`. */
  function GeneratedDataset(draws: seq<Draws>): Dataset
    requires |draws| == AIRSPACE_COUNT && AllValid(draws)
  {
    Dataset(seq(AIRSPACE_COUNT, k requires 0 <= k < AIRSPACE_COUNT => GeneratedAirspace(k + 1, draws[k])))
  }

  /** The placement step of an iteration: choose lat and lon, then clamp them. */
  method PlaceCenter(d: Draws) returns (lat: real, lon: real)
    requires ValidDraws(d)
    ensures lat == Clamp(RawPosition(d).lat, -85.0, 85.0)
    ensures lon == Clamp(RawPosition(d).lon, -180.0, 180.0)
  {
    if d.placement < 0.3 {
      var location := MAJOR_LOCATIONS[PickIndex(d.location, |MAJOR_LOCATIONS|)];
      lat := location.lat + (d.lat - 0.5) * 10.0;
      lon := location.lon + (d.lon - 0.5) * 10.0;
    } else {
      lat := (d.lat - 0.5) * 180.0;
      lon := (d.lon - 0.5) * 360.0;
    }
    lat := Max(-85.0, Min(85.0, lat));
    lon := Max(-180.0, Min(180.0, lon));
  }

  /** The `switch (shapeType)` of an iteration, filling in `dimensions`. */
  method BuildDimensions(shapeType: ShapeKind, d: Draws) returns (dimensions: Dimensions)
    ensures dimensions == ShapeDimensions(shapeType, d)
  {
    dimensions := NO_DIMENSIONS;
    match shapeType {
      case Circle =>
        var radius := d.dimension1 * 50000.0 + 5000.0;
        dimensions := NO_DIMENSIONS.(radius := Some(radius));
      case Oval =>
        var semiMajorAxis := d.dimension1 * 60000.0 + 10000.0;
        var semiMinorAxis := d.dimension2 * 40000.0 + 5000.0;
        var rotation := d.rotation * 360.0;
        dimensions := NO_DIMENSIONS.(semiMajorAxis := Some(semiMajorAxis),
                                     semiMinorAxis := Some(semiMinorAxis), rotation := Some(rotation));
      case Rectangle =>
        var width := d.dimension1 * 80000.0 + 10000.0;
        var height := d.dimension2 * 60000.0 + 10000.0;
        var rectRotation := d.rotation * 360.0;
        dimensions := NO_DIMENSIONS.(width := Some(width), height := Some(height), rotation := Some(rectRotation));
      case Track =>
        var length := d.dimension1 * 100000.0 + 20000.0;
        var trackWidth := d.dimension2 * 20000.0 + 5000.0;
        var trackRotation := d.rotation * 360.0;
        dimensions := NO_DIMENSIONS.(length := Some(length), width := Some(trackWidth), rotation := Some(trackRotation));
    }
  }

  /** One iteration of the loop: the record built from index i and that iteration's draws. */
  method GenerateAirspace(i: nat, d: Draws) returns (airspace: AirspaceRecord)
    requires ValidDraws(d)
    ensures airspace == GeneratedAirspace(i, d)
  {
    var airspaceType := AIRSPACE_TYPES[PickIndex(d.airspaceType, |AIRSPACE_TYPES|)];
    var shapeType := SHAPE_TYPES[PickIndex(d.shapeType, |SHAPE_TYPES|)];
    var color := COLORS[PickIndex(d.color, |COLORS|)];
    var lat, lon := PlaceCenter(d);
    var altitude := d.altitude * 8000.0 + 500.0;
    var opacity := 0.2 + d.opacity * 0.6;
    var dimensions := BuildDimensions(shapeType, d);
    airspace := AirspaceRecord(
      ID_PREFIX + NatToString(i),
      airspaceType + "_" + NatToString(i),
      shapeType,
      Center(lat, lon, altitude),
      dimensions,
      color,
      opacity,
      true,
      "#FFFFFF");
  }

  /** `generateAirspaceDataset()`: the counted loop that pushes one record per iteration. */
  method GenerateAirspaceDataset(draws: seq<Draws>) returns (dataset: Dataset)
    requires |draws| == AIRSPACE_COUNT && AllValid(draws)
    ensures dataset == GeneratedDataset(draws)
    ensures |dataset.airspaces| == AIRSPACE_COUNT
    ensures forall k :: 0 <= k < AIRSPACE_COUNT ==> dataset.airspaces[k].id == AirspaceId(k + 1)
  {
    var airspaces: seq<AirspaceRecord> := [];
    var i := 1;
    while i <= AIRSPACE_COUNT
      invariant 1 <= i <= AIRSPACE_COUNT + 1
      invariant |airspaces| == i - 1
      invariant forall k :: 0 <= k < i - 1 ==> airspaces[k] == GeneratedAirspace(k + 1, draws[k])
    {
      var airspace := GenerateAirspace(i, draws[i - 1]);
      airspaces := airspaces + [airspace];
      i := i + 1;
    }
    dataset := Dataset(airspaces);
    assert airspaces == GeneratedDataset(draws).airspaces;
  }

  /** The keys each shape type's dimensions carry, and no others. */
  function KeysFor(kind: ShapeKind): set<DimensionKey>
  {
    match kind
    case Circle => {Radius}
    case Oval => {SemiMajorAxis, SemiMinorAxis, Rotation}
    case Rectangle => {Width, Height, Rotation}
    case Track => {Length, Width, Rotation}
  }

  /** Whether a present value lies in [lo, hi). */
  predicate InRange(v: Option<real>, lo: real, hi: real)
  {
    v.Some? && lo <= v.value < hi
  }

  /** The documented range of every dimension of a shape type. */
  predicate DimensionsInRange(kind: ShapeKind, d: Dimensions)
  {
    match kind
    case Circle => InRange(d.radius, 5000.0, 55000.0)
    case Oval =>
      InRange(d.semiMajorAxis, 10000.0, 70000.0) && InRange(d.semiMinorAxis, 5000.0, 45000.0)
      && InRange(d.rotation, 0.0, 360.0)
    case Rectangle =>
      InRange(d.width, 10000.0, 90000.0) && InRange(d.height, 10000.0, 70000.0)
      && InRange(d.rotation, 0.0, 360.0)
    case Track =>
      InRange(d.length, 20000.0, 120000.0) && InRange(d.width, 5000.0, 25000.0)
      && InRange(d.rotation, 0.0, 360.0)
  }

  /** Each shape type gets exactly its own dimension keys, each in its documented range. */
  lemma ShapeDimensionsMatchKind(kind: ShapeKind, d: Draws)
    requires ValidDraws(d)
    ensures Keys(ShapeDimensions(kind, d)) == KeysFor(kind)
    ensures DimensionsInRange(kind, ShapeDimensions(kind, d))
  {
  }

  /** Near-city placement lands within five degrees of the chosen city, before clamping. */
  lemma NearCityPlacement(d: Draws)
    requires ValidDraws(d) && d.placement < 0.3
    ensures var city := MAJOR_LOCATIONS[PickIndex(d.location, |MAJOR_LOCATIONS|)];
            && city.lat - 5.0 <= RawPosition(d).lat < city.lat + 5.0
            && city.lon - 5.0 <= RawPosition(d).lon < city.lon + 5.0
  {
  }

  /** Global placement spans [-90, 90) by [-180, 180) before clamping. */
  lemma GlobalPlacement(d: Draws)
    requires ValidDraws(d) && d.placement >= 0.3
    ensures -90.0 <= RawPosition(d).lat < 90.0 && -180.0 <= RawPosition(d).lon < 180.0
  {
  }

  /** Every field of a generated record is fixed by the code or lies in its documented range. */
  lemma GeneratedAirspaceWellFormed(i: nat, d: Draws)
    requires ValidDraws(d)
    ensures var a := GeneratedAirspace(i, d);
            && a.id == ID_PREFIX + NatToString(i)
            && (exists t :: 0 <= t < |AIRSPACE_TYPES| && a.name == AIRSPACE_TYPES[t] + "_" + NatToString(i))
            && a.kind in SHAPE_TYPES && a.color in COLORS
            && -85.0 <= a.center.latitude <= 85.0 && -180.0 <= a.center.longitude <= 180.0
            && 500.0 <= a.center.altitude < 8500.0
            && 0.2 <= a.opacity < 0.8
            && a.outline && a.outlineColor == "#FFFFFF"
            && Keys(a.dimensions) == KeysFor(a.kind)
            && DimensionsInRange(a.kind, a.dimensions)
  {
    var a := GeneratedAirspace(i, d);
    var t := PickIndex(d.airspaceType, |AIRSPACE_TYPES|);
    assert a.name == AIRSPACE_TYPES[t] + "_" + NatToString(i);
    ShapeDimensionsMatchKind(a.kind, d);
  }

  /** Distinct indices give distinct ids. */
  lemma AirspaceIdInjective(m: nat, n: nat)
    requires AirspaceId(m) == AirspaceId(n)
    ensures m == n
  {
    assert AirspaceId(m)[|ID_PREFIX|..] == NatToString(m);
    assert AirspaceId(n)[|ID_PREFIX|..] == NatToString(n);
    NatToStringInjective(m, n);
  }

  /** The dataset holds ids airspace_1 .. airspace_10000 in order, so no id repeats. */
  lemma GeneratedIdsUnique(draws: seq<Draws>)
    requires |draws| == AIRSPACE_COUNT && AllValid(draws)
    ensures var airspaces := GeneratedDataset(draws).airspaces;
            && |airspaces| == AIRSPACE_COUNT
            && (forall k :: 0 <= k < AIRSPACE_COUNT ==> airspaces[k].id == AirspaceId(k + 1))
            && UniqueIds(airspaces)
  {
    var airspaces := GeneratedDataset(draws).airspaces;
    forall k | 0 <= k < AIRSPACE_COUNT
      ensures airspaces[k].id == AirspaceId(k + 1)
    {
      assert airspaces[k] == GeneratedAirspace(k + 1, draws[k]);
    }
    forall j, k | 0 <= j < k < |airspaces|
      ensures airspaces[j].id != airspaces[k].id
    {
      if AirspaceId(j + 1) == AirspaceId(k + 1) {
        AirspaceIdInjective(j + 1, k + 1);
      }
    }
  }
}
