/** The aircraft assignment dialog (components/AircraftAssignmentModal.tsx):
  * the aircraft offered for a route, the selection made by clicking them,
  * and the assign button. */
module AssignmentModal {
  import opened Common
  import opened Model
  import Commands

  /** An aircraft can fly the route: it is idle, its model is in the catalog
    * and the model's range covers the route distance. */
  predicate CanFly(a: AircraftInstance, models: seq<AircraftModel>, route: Route) {
    a.status == Idle && ModelOf(models, a).Some? && ModelOf(models, a).value.range >= route.distance
  }

  /** The aircraft listed in the dialog, in fleet order. */
  function AvailableAircraft(fleet: seq<AircraftInstance>, models: seq<AircraftModel>, route: Route): (r: seq<AircraftInstance>)
    ensures forall a :: a in r <==> a in fleet && CanFly(a, models, route)
  {
    Filter(fleet, (a: AircraftInstance) => CanFly(a, models, route))
  }

  /** The list takes nothing the fleet does not hold, and every aircraft of
    * the fleet that can fly the route appears in it as often as in the
    * fleet. */
  lemma {:induction false} AvailableCountsMatchFleet(fleet: seq<AircraftInstance>, models: seq<AircraftModel>, route: Route)
    ensures multiset(AvailableAircraft(fleet, models, route)) <= multiset(fleet)
    ensures forall a :: CanFly(a, models, route) ==>
              multiset(AvailableAircraft(fleet, models, route))[a] == multiset(fleet)[a]
  {
    if |fleet| > 0 {
      AvailableCountsMatchFleet(fleet[1..], models, route);
      assert fleet == [fleet[0]] + fleet[1..];
    }
  }

  // ---------------------------------------------------------------------
  // Selection and the assign button

  /** The selection after clicking the listed aircraft in turn: the last
    * one clicked, or none before the first click. */
  function Selection(clicks: seq<AircraftInstance>): (r: Option<AircraftId>)
    ensures r.None? <==> |clicks| == 0
    ensures r.Some? ==> r.value == clicks[|clicks| - 1].id
  {
    if |clicks| == 0 then None else Some(clicks[|clicks| - 1].id)
  }

  /** A selection counts only when it is set and not 0, which the dialog treats as empty. */
  predicate Selected(sel: Option<AircraftId>) { sel.Some? && sel.value != 0 }

  predicate AssignDisabled(sel: Option<AircraftId>) { !Selected(sel) }

  datatype AssignRequest = AssignRequest(routeId: string, aircraftId: AircraftId)

  /** handleAssign: the route of the dialog with the selected aircraft, and
    * nothing without a selection. */
  function HandleAssign(route: Route, sel: Option<AircraftId>): (r: Option<AssignRequest>)
    ensures r.Some? <==> !AssignDisabled(sel)
    ensures r.Some? ==> r.value == AssignRequest(route.id, sel.value)
  {
    if Selected(sel) then Some(AssignRequest(route.id, sel.value)) else None
  }

  /** When the player only clicks listed aircraft, a request names the route
    * of the dialog and an aircraft of the list. */
  lemma RequestNamesListedAircraft(fleet: seq<AircraftInstance>, models: seq<AircraftModel>, route: Route,
                                   clicks: seq<AircraftInstance>)
    requires forall c :: c in clicks ==> c in AvailableAircraft(fleet, models, route)
    ensures var r := HandleAssign(route, Selection(clicks));
            r.Some? ==> r.value.routeId == route.id &&
                        exists a :: a in fleet && CanFly(a, models, route) && a.id == r.value.aircraftId
  {
    var r := HandleAssign(route, Selection(clicks));
    if r.Some? {
      var last := clicks[|clicks| - 1];
      assert last in clicks;
    }
  }

  /** A request made from the list keeps the fleet and routes consistent, and
    * the chosen aircraft ends up in service on the route. */
  lemma RequestKeepsConsistent(p: Player, models: seq<AircraftModel>, route: Route, a: AircraftInstance)
    requires Consistent(p.fleet, p.routes)
    requires a in AvailableAircraft(p.fleet, models, route)
    ensures var q := Commands.AssignAircraft(p, route.id, a.id);
            Consistent(q.fleet, q.routes) &&
            (RouteIndex(p.routes, route.id).Some? ==>
               var j := AircraftIndex(q.fleet, a.id);
               j.Some? && q.fleet[j.value].status == InService && q.fleet[j.value].routeId == Some(route.id))
  {
    var i :| 0 <= i < |p.fleet| && p.fleet[i] == a;
    var j := AircraftIndex(p.fleet, a.id);
    assert j == Some(i) by {
      assert j.Some? && j.value <= i;
    }
    Commands.AssignKeepsConsistent(p, route.id, a.id);
  }
}
