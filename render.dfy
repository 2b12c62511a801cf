/**
 * The client's adapter from records to globe entities (`renderAirspaceShapes`
 * in src/App.tsx) and the guard that runs it when a fetch brings records.
 * The viewer's entity collection is a list of entities updated in place.
 */
module Render {
  import opened Wrappers
  import opened JsMath
  import opened Sequences
  import opened Airspace

  /** Entities whose name starts with this are the ones a render replaces. */
  const ENTITY_NAME_PREFIX := "airspace_"
  /** The fixed cylinder length and ellipse extrusion, in meters. */
  const DEFAULT_HEIGHT := 1000.0

  /** A CSS colour with the alpha `withAlpha` gives it. */
  datatype Material = Material(cssColor: string, alpha: real)

  datatype Geometry =
    | Cylinder(length: real, topRadius: Option<real>, bottomRadius: Option<real>,
               material: Material, outline: bool, outlineColor: string)
    | Ellipse(semiMinorAxis: real, semiMajorAxis: real, material: Material, outline: bool,
              outlineColor: string, rotation: real, extrudedHeight: real)

  /** An entity of the viewer; an unnamed entity has the empty name. */
  datatype Entity = Entity(name: string, position: Option<Center>, geometry: Geometry)

  predicate IsAirspaceEntity(e: Entity)
  {
    ENTITY_NAME_PREFIX <= e.name
  }

  /** The entities the clearing pass leaves in place. */
  function KeepEntity(): Entity -> bool
  {
    (e: Entity) => !IsAirspaceEntity(e)
  }

  /** JavaScript's `v || fallback` on an optional number: a missing or zero value gives the fallback. */
  function OrDefault(v: Option<real>, fallback: real): real
  {
    if v.Some? && v.value != 0.0 then v.value else fallback
  }

  datatype Axes = Axes(semiMajor: real, semiMinor: real)

  /** `Math.max(x, y)` and `Math.min(x, y)` as the major and minor axis. */
  function SortedAxes(x: real, y: real): (r: Axes)
    ensures r.semiMajor >= r.semiMinor
    ensures (r.semiMajor == x && r.semiMinor == y) || (r.semiMajor == y && r.semiMinor == x)
  {
    Axes(Max(x, y), Min(x, y))
  }

  /** The ellipse axes of the three non-circular shapes. */
  function EllipseAxes(kind: ShapeKind, d: Dimensions): (r: Axes)
    requires kind != Circle
    ensures r.semiMajor >= r.semiMinor
  {
    match kind
    case Oval =>
      SortedAxes(OrDefault(d.semiMajorAxis, 0.0), OrDefault(d.semiMinorAxis, 0.0))
    case Rectangle =>
      var width := OrDefault(d.width, 30000.0);
      var height := OrDefault(d.height, 20000.0);
      Axes(Max(width, height) / 2.0, Min(width, height) / 2.0)
    case Track =>
      var length := OrDefault(d.length, 50000.0);
      var width := OrDefault(d.width, 15000.0);
      Axes(Max(length, width) / 2.0, Min(length, width) / 2.0)
  }

  /** The rotation in degrees (`rotation ? toRadians(rotation) : 0` before the unit conversion). */
  function RotationDegrees(d: Dimensions): real
  {
    if d.rotation.Some? && d.rotation.value != 0.0 then d.rotation.value else 0.0
  }

  /** The entity configuration built for one record. */
  function EntityFor(a: AirspaceRecord): (e: Entity)
    ensures e.name == a.id && e.position == Some(a.center)
  {
    var material := Material(a.color, a.opacity);
    var geometry :=
      if a.kind == Circle then
        Cylinder(DEFAULT_HEIGHT, a.dimensions.radius, a.dimensions.radius, material, a.outline, a.outlineColor)
      else
        var axes := EllipseAxes(a.kind, a.dimensions);
        Ellipse(axes.semiMinor, axes.semiMajor, material, a.outline, a.outlineColor,
                RotationDegrees(a.dimensions), DEFAULT_HEIGHT);
    Entity(a.id, Some(a.center), geometry)
  }

  /** The entities the adding pass creates, one per record. */
  function EntitiesFor(airspaces: seq<AirspaceRecord>): (r: seq<Entity>)
    ensures |r| == |airspaces|
    ensures forall k :: 0 <= k < |r| ==> r[k].name == airspaces[k].id && r[k].position == Some(airspaces[k].center)
  {
    seq(|airspaces|, k requires 0 <= k < |airspaces| => EntityFor(airspaces[k]))
  }

  /** The entity list after a render: the non-airspace entities, then one entity per record. */
  function Rendered(existing: seq<Entity>, airspaces: seq<AirspaceRecord>): seq<Entity>
  {
    Filter(KeepEntity(), existing) + EntitiesFor(airspaces)
  }

  /** A circle becomes a cylinder whose top and bottom radius are both the record's radius. */
  lemma CircleGeometry(a: AirspaceRecord)
    requires a.kind == Circle
    ensures EntityFor(a).geometry.Cylinder?
    ensures EntityFor(a).geometry.topRadius == EntityFor(a).geometry.bottomRadius == a.dimensions.radius
    ensures EntityFor(a).geometry.length == DEFAULT_HEIGHT
  {
  }

  /**
   * An oval becomes an ellipse whose axes are its two axes in descending
   * order, a missing or zero axis read as 0; the axes given in order pass through.
   */
  lemma OvalGeometry(a: AirspaceRecord)
    requires a.kind == Oval
    ensures var g := EntityFor(a).geometry;
            var major := OrDefault(a.dimensions.semiMajorAxis, 0.0);
            var minor := OrDefault(a.dimensions.semiMinorAxis, 0.0);
            && g.Ellipse? && g.semiMajorAxis >= g.semiMinorAxis
            && multiset{g.semiMajorAxis, g.semiMinorAxis} == multiset{major, minor}
            && (major >= minor ==> g.semiMajorAxis == major && g.semiMinorAxis == minor)
  {
  }

  /**
   * A rectangle becomes an ellipse with half its larger side as major and half
   * its smaller side as minor axis; a missing or zero width is 30000, height 20000.
   */
  lemma RectangleGeometry(a: AirspaceRecord)
    requires a.kind == Rectangle
    ensures var g := EntityFor(a).geometry;
            var width := if a.dimensions.width.Some? && a.dimensions.width.value != 0.0 then a.dimensions.width.value else 30000.0;
            var height := if a.dimensions.height.Some? && a.dimensions.height.value != 0.0 then a.dimensions.height.value else 20000.0;
            && g.Ellipse? && g.semiMajorAxis >= g.semiMinorAxis
            && multiset{2.0 * g.semiMajorAxis, 2.0 * g.semiMinorAxis} == multiset{width, height}
  {
  }

  /**
   * A track becomes an ellipse with half its larger extent as major and half
   * its smaller extent as minor axis; a missing or zero length is 50000, width 15000.
   */
  lemma TrackGeometry(a: AirspaceRecord)
    requires a.kind == Track
    ensures var g := EntityFor(a).geometry;
            var length := if a.dimensions.length.Some? && a.dimensions.length.value != 0.0 then a.dimensions.length.value else 50000.0;
            var width := if a.dimensions.width.Some? && a.dimensions.width.value != 0.0 then a.dimensions.width.value else 15000.0;
            && g.Ellipse? && g.semiMajorAxis >= g.semiMinorAxis
            && multiset{2.0 * g.semiMajorAxis, 2.0 * g.semiMinorAxis} == multiset{length, width}
  {
  }

  /** With no usable width or height, a rectangle is a 15000 by 10000 ellipse. */
  lemma DefaultRectangle(a: AirspaceRecord)
    requires a.kind == Rectangle
    requires a.dimensions.width in {None, Some(0.0)} && a.dimensions.height in {None, Some(0.0)}
    ensures EntityFor(a).geometry.semiMajorAxis == 15000.0 && EntityFor(a).geometry.semiMinorAxis == 10000.0
  {
  }

  /** With no usable length or width, a track is a 25000 by 7500 ellipse. */
  lemma DefaultTrack(a: AirspaceRecord)
    requires a.kind == Track
    requires a.dimensions.length in {None, Some(0.0)} && a.dimensions.width in {None, Some(0.0)}
    ensures EntityFor(a).geometry.semiMajorAxis == 25000.0 && EntityFor(a).geometry.semiMinorAxis == 7500.0
  {
  }

  /**
   * After a render the list starts with the entities that were there and do
   * not carry the prefix, in their order, and ends with one entity per record,
   * named by its id, in the records' order; no earlier prefixed entity remains.
   */
  lemma RenderedContents(existing: seq<Entity>, airspaces: seq<AirspaceRecord>)
    ensures var r := Rendered(existing, airspaces);
            var kept := Filter(KeepEntity(), existing);
            && |r| == |kept| + |airspaces|
            && r[..|kept|] == kept
            && (exists idx :: IsSelection(kept, existing, idx)
                              && forall j :: 0 <= j < |existing| ==> (j in idx <==> !IsAirspaceEntity(existing[j])))
            && (forall k :: 0 <= k < |kept| ==> !IsAirspaceEntity(r[k]))
            && (forall k :: 0 <= k < |airspaces| ==>
                  r[|kept| + k] == EntityFor(airspaces[k]) && r[|kept| + k].name == airspaces[k].id)
  {
    var r := Rendered(existing, airspaces);
    var kept := Filter(KeepEntity(), existing);
    var added := EntitiesFor(airspaces);
    assert r == kept + added;
    assert r[..|kept|] == kept;
    FilterSelectsKeptIndices(KeepEntity(), existing);
    var idx := KeptIndices(KeepEntity(), existing);
    assert IsSelection(kept, existing, idx);
    forall k | 0 <= k < |kept|
      ensures !IsAirspaceEntity(r[k])
    {
      assert r[k] == kept[k];
      assert KeepEntity()(kept[k]);
    }
    forall k | 0 <= k < |airspaces|
      ensures r[|kept| + k] == EntityFor(airspaces[k])
    {
      assert r[|kept| + k] == added[k];
    }
  }

  /** The entities drawn for records whose ids carry the prefix are all cleared. */
  lemma PrefixedEntitiesCleared(airspaces: seq<AirspaceRecord>)
    requires forall k :: 0 <= k < |airspaces| ==> ENTITY_NAME_PREFIX <= airspaces[k].id
    ensures Filter(KeepEntity(), EntitiesFor(airspaces)) == []
  {
    var added := EntitiesFor(airspaces);
    forall k | 0 <= k < |added|
      ensures !KeepEntity()(added[k])
    {
      assert added[k].name == airspaces[k].id;
    }
    FilterNoneKept(KeepEntity(), added);
  }

  /**
   * Rendering again after rendering records whose ids all carry the prefix is
   * the same as rendering once: the earlier render's entities are all replaced.
   */
  lemma RenderAgainReplaces(existing: seq<Entity>, first: seq<AirspaceRecord>, second: seq<AirspaceRecord>)
    requires forall k :: 0 <= k < |first| ==> ENTITY_NAME_PREFIX <= first[k].id
    ensures Rendered(Rendered(existing, first), second) == Rendered(existing, second)
  {
    var kept := Filter(KeepEntity(), existing);
    var added := EntitiesFor(first);
    PrefixedEntitiesCleared(first);
    FilterAppend(KeepEntity(), kept, added);
    FilterIdempotent(KeepEntity(), existing);
    assert Filter(KeepEntity(), kept + added) == kept + [];
    assert kept + [] == kept;
  }

  /** `viewer.entities` */
  class EntityCollection {
    var values: seq<Entity>

    constructor (initial: seq<Entity>)
      ensures values == initial
    {
      values := initial;
    }

    /** `entities.add(entity)` */
    method Add(e: Entity)
      modifies this
      ensures values == old(values) + [e]
    {
      values := values + [e];
    }

    /** `entities.remove(entity)` for the entity at position k. */
    method RemoveAt(k: nat)
      requires k < |values|
      modifies this
      ensures values == old(values[..k]) + old(values[k + 1..])
    {
      values := values[..k] + values[k + 1..];
    }

    /** The clearing pass: remove every entity whose name starts with the prefix. */
    method ClearAirspaceEntities()
      modifies this
      ensures values == Filter(KeepEntity(), old(values))
    {
      ghost var original := values;
      // `visited` counts the original entities looked at so far.
      ghost var visited := 0;
      var i := 0;
      assert original[..0] == [] && original[0..] == original;
      while i < |values|
        invariant 0 <= visited <= |original|
        invariant i == |Filter(KeepEntity(), original[..visited])|
        invariant values == Filter(KeepEntity(), original[..visited]) + original[visited..]
        decreases |values| - i
      {
        FilterInPlaceStep(KeepEntity(), original, visited, values, i);
        if IsAirspaceEntity(values[i]) {
          RemoveAt(i);
        } else {
          i := i + 1;
        }
        visited := visited + 1;
      }
      assert original[..visited] == original;
    }

    /** The adding pass: one entity per record, in order. */
    method AddAirspaceEntities(airspaceData: seq<AirspaceRecord>)
      modifies this
      ensures values == old(values) + EntitiesFor(airspaceData)
    {
      for k := 0 to |airspaceData|
        invariant values == old(values) + EntitiesFor(airspaceData[..k])
      {
        Add(EntityFor(airspaceData[k]));
        assert EntitiesFor(airspaceData[..k + 1]) == EntitiesFor(airspaceData[..k]) + [EntityFor(airspaceData[k])];
      }
      assert airspaceData[..|airspaceData|] == airspaceData;
    }

    /** `renderAirspaceShapes(viewer, airspaceData)` */
    method RenderAirspaceShapes(airspaceData: seq<AirspaceRecord>)
      modifies this
      ensures values == Rendered(old(values), airspaceData)
    {
      ClearAirspaceEntities();
      AddAirspaceEntities(airspaceData);
    }
  }

  /** The effect that re-renders when the fetched list changes: only for a viewer and a non-empty list. */
  method OnAirspacesChanged(viewer: EntityCollection?, airspaces: seq<AirspaceRecord>)
    modifies viewer
    ensures viewer != null && |airspaces| > 0 ==> viewer.values == Rendered(old(viewer.values), airspaces)
    ensures viewer != null && |airspaces| == 0 ==> viewer.values == old(viewer.values)
  {
    if viewer != null && |airspaces| > 0 {
      viewer.RenderAirspaceShapes(airspaces);
    }
  }
}
