/**
 * The refresh step of the polling coordinator: the listed lights become the
 * snapshot `id -> light`, and a client error becomes an update failure.
 */
module Coordinator {
  import opened Wrappers
  import opened Api

  function Ids(lights: seq<LifxLight>): set<string> {
    set i | 0 <= i < |lights| :: lights[i].id
  }

  /**
   * The dict comprehension `{light.id: light for light in lights}`: entries are
   * inserted in list order, so a later light with the same id replaces an earlier one.
   */
  function IndexById(lights: seq<LifxLight>): (m: map<string, LifxLight>)
    ensures m.Keys == Ids(lights)
    ensures forall k :: k in m ==> m[k].id == k
    decreases |lights|
  {
    if lights == [] then map[]
    else
      var init, last := lights[..|lights| - 1], lights[|lights| - 1];
      var m := IndexById(init);
      assert Ids(lights) == Ids(init) + {last.id} by {
        assert forall i :: 0 <= i < |init| ==> init[i] == lights[i];
      }
      m[last.id := last]
  }

  /** The snapshot has at most one entry per listed light. */
  lemma {:induction false} IndexSize(lights: seq<LifxLight>)
    ensures |IndexById(lights)| <= |lights|
    decreases |lights|
  {
    if lights != [] {
      var init, last := lights[..|lights| - 1], lights[|lights| - 1];
      IndexSize(init);
      var m := IndexById(init);
      assert IndexById(lights).Keys == m.Keys + {last.id};
      assert |m.Keys + {last.id}| <= |m.Keys| + 1;
    }
  }

  /** With duplicate ids the last light carrying the id is the one kept. */
  lemma {:induction false} LaterWins(lights: seq<LifxLight>, i: nat)
    requires i < |lights|
    requires forall j :: i < j < |lights| ==> lights[j].id != lights[i].id
    ensures lights[i].id in IndexById(lights) && IndexById(lights)[lights[i].id] == lights[i]
    decreases |lights|
  {
    if i < |lights| - 1 {
      var init := lights[..|lights| - 1];
      LaterWins(init, i);
    }
  }

  /** Ids that occur once map to their light; so with distinct ids the map loses nothing. */
  lemma DistinctIdsKeepEveryLight(lights: seq<LifxLight>)
    requires forall i, j :: 0 <= i < j < |lights| ==> lights[i].id != lights[j].id
    ensures forall i :: 0 <= i < |lights| ==> IndexById(lights)[lights[i].id] == lights[i]
  {
    forall i | 0 <= i < |lights| ensures IndexById(lights)[lights[i].id] == lights[i] {
      LaterWins(lights, i);
    }
  }

  /** What one refresh produces: new data, an update failure, or an error it does not handle. */
  datatype UpdateResult =
    | Updated(data: map<string, LifxLight>)
    | UpdateFailed(message: string)
    | Unhandled(error: Exception)

  /** `_async_update_data`, given what `list_lights` returned or raised. */
  function UpdateData(listed: Result<seq<LifxLight>, Exception>): (r: UpdateResult)
    ensures r.Updated? <==> listed.Ok?
    ensures r.Updated? ==> r.data == IndexById(listed.value)
    ensures r.Updated? ==> r.data.Keys == Ids(listed.value) && forall k :: k in r.data ==> r.data[k].id == k
    ensures r.UpdateFailed? <==> listed.Err? && IsInstance(listed.error, BaseError)
    ensures r.UpdateFailed? ==> r.message == "Error communicating with API: " + listed.error.message
    ensures r.Unhandled? ==> listed.Err? && r.error == listed.error
  {
    match listed
    case Ok(lights) => Updated(IndexById(lights))
    case Err(e) =>
      if IsInstance(e, BaseError) then UpdateFailed("Error communicating with API: " + e.message)
      else Unhandled(e)
  }

  /**
   * From the network answer to the refresh: every transport failure and every
   * status of 400 or more (authentication ones included) is an update failure;
   * an empty listing gives an empty snapshot.
   */
  lemma UpdateFromTransport(t: Transport<seq<LightDict>>)
    ensures !t.Response? || t.status >= 400 ==> UpdateData(LightsFromOutcome(Classify(t))).UpdateFailed?
    ensures t.Response? && t.status < 400 && t.status != 202 && t.body == [] ==>
              UpdateData(LightsFromOutcome(Classify(t))) == Updated(map[])
    ensures t.Response? && t.status == 202 ==> UpdateData(LightsFromOutcome(Classify(t))).Unhandled?
  {
    ClassifyTaxonomy(t);
  }

  /** A light object without an `id` is not a client error: the refresh does not turn it into a failure. */
  lemma MissingIdIsUnhandled(d: LightDict)
    requires d.id.None?
    ensures UpdateData(FromDicts([d])) == Unhandled(KeyError("id"))
  {
  }
}
