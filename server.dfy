/**
 * The mock query service (server.js): the viewport filter behind
 * `GET /api/airspaces`, the rule that turns query parameters into bounds, the
 * list response, and the lookup behind `GET /api/airspaces/:id`. The dataset
 * loaded once at start-up is passed in as a value.
 */
module Server {
  import opened Wrappers
  import opened JsMath
  import opened Sequences
  import opened Airspace

  /** A viewport in degrees, as the client sends it. */
  datatype MapBounds = MapBounds(north: real, south: real, east: real, west: real)

  /** The bounds after normalisation: each pair put in ascending order. */
  datatype Box = Box(minLat: real, maxLat: real, minLon: real, maxLon: real)

  function NormalizeBounds(b: MapBounds): (box: Box)
    ensures box.minLat <= box.maxLat && box.minLon <= box.maxLon
    ensures {box.minLat, box.maxLat} == {b.south, b.north}
    ensures {box.minLon, box.maxLon} == {b.west, b.east}
  {
    Box(Min(b.south, b.north), Max(b.south, b.north), Min(b.west, b.east), Max(b.west, b.east))
  }

  /** The longitude test with both of its branches, the second for a box that crosses the meridian. */
  predicate LonInBounds(box: Box, lon: real)
  {
    if box.minLon <= box.maxLon then lon >= box.minLon && lon <= box.maxLon
    else lon >= box.minLon || lon <= box.maxLon
  }

  predicate InBox(box: Box, c: Center)
  {
    c.latitude >= box.minLat && c.latitude <= box.maxLat && LonInBounds(box, c.longitude)
  }

  /** The callback handed to `filter`. */
  function CenterInBox(box: Box): AirspaceRecord -> bool
  {
    (a: AirspaceRecord) => InBox(box, a.center)
  }

  /** `filterAirspacesByBounds(bounds)` over the loaded records. */
  function FilterAirspacesByBounds(airspaces: seq<AirspaceRecord>, bounds: Option<MapBounds>): (r: seq<AirspaceRecord>)
    ensures |r| <= |airspaces|
    ensures forall k :: 0 <= k < |r| ==> r[k] in airspaces
  {
    match bounds
    case None => airspaces
    case Some(b) => Filter(CenterInBox(NormalizeBounds(b)), airspaces)
  }

  /** Reference reading of a viewport: x lies between a and b, whichever of the two is larger. */
  predicate Between(x: real, a: real, b: real)
  {
    (a <= x <= b) || (b <= x <= a)
  }

  predicate Within(b: MapBounds, c: Center)
  {
    Between(c.latitude, b.south, b.north) && Between(c.longitude, b.west, b.east)
  }

  /** The wrap-around branch of the longitude test is never taken: the box is already ordered. */
  lemma WrapBranchUnreachable(b: MapBounds, lon: real)
    ensures var box := NormalizeBounds(b);
            box.minLon <= box.maxLon
            && (LonInBounds(box, lon) <==> box.minLon <= lon <= box.maxLon)
  {
  }

  /** The test the code performs is the edge-inclusive, order-insensitive reading of the bounds. */
  lemma InBoxIffWithin(b: MapBounds, c: Center)
    ensures InBox(NormalizeBounds(b), c) <==> Within(b, c)
  {
  }

  lemma NoBoundsReturnsAll(airspaces: seq<AirspaceRecord>)
    ensures FilterAirspacesByBounds(airspaces, None) == airspaces
  {
  }

  /**
   * With bounds, the result is the subsequence of the records, in their
   * original order, at exactly the positions whose center is within the bounds.
   */
  lemma FilterSelectsWithin(airspaces: seq<AirspaceRecord>, b: MapBounds)
    ensures exists idx :: IsSelection(FilterAirspacesByBounds(airspaces, Some(b)), airspaces, idx)
                          && forall j :: 0 <= j < |airspaces| ==> (j in idx <==> Within(b, airspaces[j].center))
  {
    var keep := CenterInBox(NormalizeBounds(b));
    FilterSelectsKeptIndices(keep, airspaces);
    var idx := KeptIndices(keep, airspaces);
    forall j | 0 <= j < |airspaces|
      ensures j in idx <==> Within(b, airspaces[j].center)
    {
      InBoxIffWithin(b, airspaces[j].center);
      assert keep(airspaces[j]) == InBox(NormalizeBounds(b), airspaces[j].center);
    }
    assert IsSelection(FilterAirspacesByBounds(airspaces, Some(b)), airspaces, idx);
  }

  /** Giving north and south, or east and west, in the other order changes nothing. */
  lemma FilterSymmetric(airspaces: seq<AirspaceRecord>, b: MapBounds)
    ensures FilterAirspacesByBounds(airspaces, Some(MapBounds(b.south, b.north, b.east, b.west)))
            == FilterAirspacesByBounds(airspaces, Some(b))
    ensures FilterAirspacesByBounds(airspaces, Some(MapBounds(b.north, b.south, b.west, b.east)))
            == FilterAirspacesByBounds(airspaces, Some(b))
  {
    assert NormalizeBounds(MapBounds(b.south, b.north, b.east, b.west)) == NormalizeBounds(b);
    assert NormalizeBounds(MapBounds(b.north, b.south, b.west, b.east)) == NormalizeBounds(b);
  }

  /** A record whose center lies on any edge or corner of the box is returned. */
  lemma EdgesInclusive(airspaces: seq<AirspaceRecord>, b: MapBounds, k: nat)
    requires k < |airspaces|
    requires Within(b, airspaces[k].center)
    requires airspaces[k].center.latitude in {b.north, b.south} || airspaces[k].center.longitude in {b.east, b.west}
    ensures airspaces[k] in FilterAirspacesByBounds(airspaces, Some(b))
  {
    InBoxIffWithin(b, airspaces[k].center);
    assert CenterInBox(NormalizeBounds(b))(airspaces[k]);
  }

  /** The client's fallback viewport (north 45, south 35, east -70, west -80) around New York. */
  lemma NewYorkViewport(a: AirspaceRecord)
    requires a.center.latitude == 40.0 && a.center.longitude == -75.0
    ensures FilterAirspacesByBounds([a], Some(MapBounds(45.0, 35.0, -70.0, -80.0))) == [a]
    ensures FilterAirspacesByBounds([a], Some(MapBounds(45.0, 35.0, -70.0, -74.0))) == []
  {
    assert [a][..0] == [];
  }

  /**
   * West of east is not read as a box across the meridian: west 170 and east
   * -170 select the longitudes from -170 to 170, so 0 is kept and 179 and -179 are not.
   */
  lemma MeridianBoxAsWritten(a: AirspaceRecord)
    requires a.center.latitude == 0.0
    ensures var b := MapBounds(10.0, -10.0, -170.0, 170.0);
            && (a.center.longitude == 0.0 ==> FilterAirspacesByBounds([a], Some(b)) == [a])
            && (a.center.longitude in {179.0, -179.0} ==> FilterAirspacesByBounds([a], Some(b)) == [])
  {
    assert [a][..0] == [];
  }

  /** The four bound parameters of `req.query`, as strings when given. */
  datatype Query = Query(north: Option<string>, south: Option<string>, east: Option<string>, west: Option<string>)

  /** A query parameter is truthy when it is given and is not the empty string. */
  predicate Truthy(p: Option<string>)
  {
    p.Some? && p.value != ""
  }

  /**
   * Bounds are built only when all four parameters are truthy; each field is
   * `parseFloat` of the parameter of the same name.
   */
  function ParseBounds(q: Query, parseFloat: string -> real): (r: Option<MapBounds>)
    ensures r.Some? <==> Truthy(q.north) && Truthy(q.south) && Truthy(q.east) && Truthy(q.west)
    ensures r.Some? ==> r.value == MapBounds(parseFloat(q.north.value), parseFloat(q.south.value),
                                             parseFloat(q.east.value), parseFloat(q.west.value))
  {
    if Truthy(q.north) && Truthy(q.south) && Truthy(q.east) && Truthy(q.west) then
      Some(MapBounds(parseFloat(q.north.value), parseFloat(q.south.value),
                     parseFloat(q.east.value), parseFloat(q.west.value)))
    else None
  }

  /** The JSON body of a list response (the timestamp is left out). */
  datatype ListResponse = ListResponse(
    success: bool,
    data: seq<AirspaceRecord>,
    count: nat,
    totalAvailable: nat,
    bounds: Option<MapBounds>)

  /** `GET /api/airspaces` */
  function GetAirspaces(dataset: Dataset, q: Query, parseFloat: string -> real): (r: ListResponse)
    ensures r.success
    ensures r.count == |r.data| <= r.totalAvailable == |dataset.airspaces|
    ensures r.bounds == ParseBounds(q, parseFloat)
    ensures r.data == FilterAirspacesByBounds(dataset.airspaces, r.bounds)
    ensures r.bounds.None? ==> r.data == dataset.airspaces
    ensures forall k :: 0 <= k < |r.data| ==> r.data[k] in dataset.airspaces
  {
    var bounds := ParseBounds(q, parseFloat);
    var airspaces := FilterAirspacesByBounds(dataset.airspaces, bounds);
    ListResponse(true, airspaces, |airspaces|, |dataset.airspaces|, bounds)
  }

  /** A missing or empty bound parameter means the whole dataset, and count equals totalAvailable. */
  lemma MissingParameterReturnsAll(dataset: Dataset, q: Query, parseFloat: string -> real)
    requires !Truthy(q.north) || !Truthy(q.south) || !Truthy(q.east) || !Truthy(q.west)
    ensures GetAirspaces(dataset, q, parseFloat).data == dataset.airspaces
    ensures GetAirspaces(dataset, q, parseFloat).count == GetAirspaces(dataset, q, parseFloat).totalAvailable
  {
  }

  /** The outcome of `GET /api/airspaces/:id` (timestamps left out). */
  datatype ByIdResponse = Found(data: AirspaceRecord) | NotFound(error: string)
  {
    function Status(): nat
    {
      if Found? then 200 else 404
    }

    predicate Success()
    {
      Found?
    }
  }

  /** The callback handed to `find`. */
  function HasId(id: string): AirspaceRecord -> bool
  {
    (a: AirspaceRecord) => a.id == id
  }

  /** `GET /api/airspaces/:id`: the first record with that id, or a 404. */
  function GetAirspaceById(dataset: Dataset, id: string): (r: ByIdResponse)
    ensures r.Success() <==> r.Found?
    ensures r.NotFound? <==> forall k :: 0 <= k < |dataset.airspaces| ==> dataset.airspaces[k].id != id
    ensures r.NotFound? ==> r.Status() == 404 && r.error == "Airspace not found"
    ensures r.Found? ==> r.Status() == 200 && r.data.id == id
    ensures r.Found? ==> exists k :: 0 <= k < |dataset.airspaces| && dataset.airspaces[k] == r.data
                                      && forall j :: 0 <= j < k ==> dataset.airspaces[j].id != id
  {
    match Find(HasId(id), dataset.airspaces)
    case None => NotFound("Airspace not found")
    case Some(a) => Found(a)
  }

  /** When ids are unique, looking up a record's id returns that very record. */
  lemma LookupKnownId(dataset: Dataset, k: nat)
    requires UniqueIds(dataset.airspaces)
    requires k < |dataset.airspaces|
    ensures GetAirspaceById(dataset, dataset.airspaces[k].id) == Found(dataset.airspaces[k])
  {
    var r := GetAirspaceById(dataset, dataset.airspaces[k].id);
    var j :| 0 <= j < |dataset.airspaces| && dataset.airspaces[j] == r.data
             && forall i :: 0 <= i < j ==> dataset.airspaces[i].id != dataset.airspaces[k].id;
    assert j == k;
  }
}
