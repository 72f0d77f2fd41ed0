/** The hub dialog (components/HubSelectionModal.tsx): the airports the
  * player may choose as hub, the selection, and the confirm button. */
module HubModal {
  import opened Common
  import opened Model
  import Commands

  /** The airports some route starts or ends at, collected route by route. */
  function Endpoints(routes: seq<Route>): set<string> {
    if |routes| == 0 then {}
    else Endpoints(routes[..|routes| - 1]) + {routes[|routes| - 1].origin, routes[|routes| - 1].destination}
  }

  /** An airport is collected exactly when a route starts or ends there. */
  lemma {:induction false} EndpointsMembership(routes: seq<Route>, id: string)
    ensures id in Endpoints(routes) <==> exists r :: r in routes && (r.origin == id || r.destination == id)
  {
    if |routes| > 0 {
      var front := routes[..|routes| - 1];
      var last := routes[|routes| - 1];
      EndpointsMembership(front, id);
      assert routes == front + [last];
      if exists r :: r in routes && (r.origin == id || r.destination == id) {
        var r :| r in routes && (r.origin == id || r.destination == id);
        if r != last {
          assert r in front;
        }
      }
    }
  }

  /** The set of operating airports, filled by a loop over the routes. */
  method OperatingAirportIds(routes: seq<Route>) returns (ids: set<string>)
    ensures ids == Endpoints(routes)
  {
    ids := {};
    var i := 0;
    while i < |routes|
      invariant 0 <= i <= |routes|
      invariant ids == Endpoints(routes[..i])
    {
      assert routes[..i + 1][..i] == routes[..i];
      ids := ids + {routes[i].origin, routes[i].destination};
      i := i + 1;
    }
    assert routes[..|routes|] == routes;
  }

  function EligibleAirports(routes: seq<Route>, airports: seq<Airport>): seq<Airport> {
    Filter(airports, (a: Airport) => a.id in Endpoints(routes))
  }

  /** eligibleAirports: the catalog airports, in catalog order, that some
    * route of the player starts or ends at. */
  method ComputeEligibleAirports(routes: seq<Route>, airports: seq<Airport>) returns (eligible: seq<Airport>)
    ensures eligible == EligibleAirports(routes, airports)
  {
    var ids := OperatingAirportIds(routes);
    eligible := Filter(airports, (a: Airport) => a.id in ids);
  }

  /** An airport is offered exactly when it is in the catalog and a route of
    * the player starts or ends there. */
  lemma EligibleIffServed(routes: seq<Route>, airports: seq<Airport>, a: Airport)
    ensures a in EligibleAirports(routes, airports) <==>
              a in airports && exists r :: r in routes && (r.origin == a.id || r.destination == a.id)
  {
    EndpointsMembership(routes, a.id);
  }

  // ---------------------------------------------------------------------
  // Selection and confirmation

  /** The selection starts at the current hub and becomes the last airport
    * clicked. */
  function Selection(hub: Option<string>, clicks: seq<Airport>): (r: Option<string>)
    ensures |clicks| == 0 ==> r == hub
    ensures |clicks| > 0 ==> r == Some(clicks[|clicks| - 1].id)
  {
    if |clicks| == 0 then hub else Some(clicks[|clicks| - 1].id)
  }

  /** A selection counts only when it is set and not the empty id. */
  predicate Selected(sel: Option<string>) { sel.Some? && sel.value != "" }

  /** Confirm is disabled with no selection or when the selection is already
    * the hub. */
  predicate ConfirmDisabled(sel: Option<string>, hub: Option<string>) {
    !Selected(sel) || sel == hub
  }

  /** handleSetHub: the selected airport, if there is one, becomes the hub. */
  function HandleSetHub(p: Player, sel: Option<string>): (q: Player)
    ensures Selected(sel) ==> q == Commands.SetHub(p, sel.value)
    ensures !Selected(sel) ==> q == p
  {
    if Selected(sel) then Commands.SetHub(p, sel.value) else p
  }

  /** Before any click the confirm button is disabled. An enabled confirm,
    * after clicks on offered airports only, moves the hub to a different
    * airport that one of the player's routes starts or ends at. */
  lemma ConfirmMovesHubToServedAirport(p: Player, airports: seq<Airport>, clicks: seq<Airport>)
    requires forall c :: c in clicks ==> c in EligibleAirports(p.routes, airports)
    ensures ConfirmDisabled(Selection(p.hubAirportId, []), p.hubAirportId)
    ensures var sel := Selection(p.hubAirportId, clicks);
            !ConfirmDisabled(sel, p.hubAirportId) ==>
              var q := HandleSetHub(p, sel);
              q.hubAirportId != p.hubAirportId && q.hubAirportId.Some? &&
              exists r :: r in p.routes && (r.origin == q.hubAirportId.value || r.destination == q.hubAirportId.value)
  {
    var sel := Selection(p.hubAirportId, clicks);
    if !ConfirmDisabled(sel, p.hubAirportId) {
      var last := clicks[|clicks| - 1];
      assert last in clicks;
      EligibleIffServed(p.routes, airports, last);
    }
  }
}
