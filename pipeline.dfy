/**
 * Properties of the three parts together: the generated file served by the
 * query service and drawn by the client.
 */
module Pipeline {
  import opened Wrappers
  import opened Airspace
  import opened Generator
  import opened Server
  import opened Render

  /** Looking up `airspace_i` in a generated dataset finds record i, and only i in 1..10000 is found. */
  lemma LookupGeneratedId(draws: seq<Draws>, i: nat)
    requires |draws| == AIRSPACE_COUNT && AllValid(draws)
    ensures var dataset := GeneratedDataset(draws);
            && (1 <= i <= AIRSPACE_COUNT ==> GetAirspaceById(dataset, AirspaceId(i)) == Found(dataset.airspaces[i - 1]))
            && (i == 0 || i > AIRSPACE_COUNT ==> GetAirspaceById(dataset, AirspaceId(i)).Status() == 404)
  {
    var dataset := GeneratedDataset(draws);
    GeneratedIdsUnique(draws);
    if 1 <= i <= AIRSPACE_COUNT {
      LookupKnownId(dataset, i - 1);
    } else {
      forall k | 0 <= k < |dataset.airspaces|
        ensures dataset.airspaces[k].id != AirspaceId(i)
      {
        if dataset.airspaces[k].id == AirspaceId(i) {
          AirspaceIdInjective(k + 1, i);
        }
      }
    }
  }

  /**
   * When the client redraws for a new viewport over a generated dataset, the
   * records of the previous viewport are all replaced: the result is as if
   * only the new viewport had been drawn.
   */
  lemma ViewportRedrawReplaces(draws: seq<Draws>, existing: seq<Entity>, previous: MapBounds, current: MapBounds)
    requires |draws| == AIRSPACE_COUNT && AllValid(draws)
    ensures var airspaces := GeneratedDataset(draws).airspaces;
            Rendered(Rendered(existing, FilterAirspacesByBounds(airspaces, Some(previous))),
                     FilterAirspacesByBounds(airspaces, Some(current)))
            == Rendered(existing, FilterAirspacesByBounds(airspaces, Some(current)))
  {
    var airspaces := GeneratedDataset(draws).airspaces;
    var shown := FilterAirspacesByBounds(airspaces, Some(previous));
    GeneratedIdsUnique(draws);
    forall k | 0 <= k < |shown|
      ensures ENTITY_NAME_PREFIX <= shown[k].id
    {
      var j :| 0 <= j < |airspaces| && airspaces[j] == shown[k];
      assert airspaces[j].id == ID_PREFIX + NatToString(j + 1);
    }
    RenderAgainReplaces(existing, shown, FilterAirspacesByBounds(airspaces, Some(current)));
  }
}
