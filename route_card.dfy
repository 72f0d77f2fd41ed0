/** The compact route card (components/CompactRouteCard.tsx): whether it is
  * drawn, the assignment status, and the closed / competition / alliance /
  * hub badges. */
module RouteCard {
  import opened Common
  import opened Model
  import opened RouteEconomics

  /** The card draws nothing unless both endpoints are in the catalog. */
  function CardShown(route: Route, airports: seq<Airport>): (r: bool)
    ensures r <==> (exists a :: a in airports && a.id == route.origin) &&
                   (exists a :: a in airports && a.id == route.destination)
  {
    FindAirport(airports, route.origin).Some? && FindAirport(airports, route.destination).Some?
  }

  /** The aircraft shown as assigned: looked up only for a truthy (non-zero)
    * aircraft id. */
  function AssignedAircraft(route: Route, fleet: seq<AircraftInstance>): (r: Option<AircraftInstance>)
    ensures r.Some? ==> r.value in fleet && route.aircraftId == Some(r.value.id) && r.value.id != 0
  {
    if route.aircraftId.Some? && route.aircraftId.value != 0 then FindAircraft(fleet, route.aircraftId.value)
    else None
  }

  /** In a consistent state a route with a (non-zero) aircraft id is shown as
    * assigned, to the aircraft in service on it; a route without one is not. */
  lemma AssignedStatus(fleet: seq<AircraftInstance>, routes: seq<Route>, i: nat)
    requires Consistent(fleet, routes) && i < |routes|
    ensures routes[i].aircraftId.Some? && routes[i].aircraftId.value != 0 ==>
              AssignedAircraft(routes[i], fleet).Some? &&
              AssignedAircraft(routes[i], fleet).value.status == InService &&
              AssignedAircraft(routes[i], fleet).value.routeId == Some(routes[i].id)
    ensures routes[i].aircraftId.None? ==> AssignedAircraft(routes[i], fleet).None?
  {
    if routes[i].aircraftId.Some? && routes[i].aircraftId.value != 0 {
      ConsistentRouteAircraft(fleet, routes, i);
      var j := AircraftIndex(fleet, routes[i].aircraftId.value).value;
      assert AssignedAircraft(routes[i], fleet) == Some(fleet[j]);
    }
  }

  /** The card's hub test: a truthy (non-empty) hub id that is an endpoint. */
  function CardIsHub(route: Route, hub: Option<string>): (r: bool)
    ensures r <==> IsHubRoute(route, hub) && hub.value != ""
  {
    hub.Some? && hub.value != "" && (route.origin == hub.value || route.destination == hub.value)
  }

  /** The competition badge: a long route (over 1000 km) that is neither a
    * hub route nor closed. */
  function HasCompetition(route: Route, hub: Option<string>, closed: set<string>): bool {
    route.distance > 1000.0 && !CardIsHub(route, hub) && !IsRouteClosed(route, closed)
  }

  datatype Badges = Badges(closed: bool, competition: bool, alliance: bool, hub: bool)

  function CardBadges(route: Route, p: Player, alliances: seq<Alliance>, closed: set<string>): Badges {
    var isClosed := IsRouteClosed(route, closed);
    Badges(isClosed, HasCompetition(route, p.hubAirportId, closed) && !isClosed,
           CardAllianceBadge(p.allianceId, alliances), CardIsHub(route, p.hubAirportId))
  }

  /** A closed route shows the closed badge and never the competition badge;
    * a hub route never shows the competition badge, and any other route shows
    * it exactly when it is longer than 1000 km; the alliance badge shows
    * exactly when the player's alliance is listed with a member other than
    * the player. */
  lemma BadgesExclusive(route: Route, p: Player, alliances: seq<Alliance>, closed: set<string>)
    ensures var b := CardBadges(route, p, alliances, closed);
            (b.closed <==> route.origin in closed || route.destination in closed) &&
            !(b.closed && b.competition) && !(b.hub && b.competition) &&
            (b.competition <==> route.distance > 1000.0 && !b.closed && !b.hub) &&
            (b.alliance <==> p.allianceId.Some? && FindAlliance(alliances, p.allianceId.value).Some? &&
                             exists m :: m in FindAlliance(alliances, p.allianceId.value).value.members && m != PlayerMember)
  {
    if p.allianceId.Some? && FindAlliance(alliances, p.allianceId.value).Some? {
      var a := FindAlliance(alliances, p.allianceId.value).value;
      if exists m :: m in a.members && m != PlayerMember {
        var m :| m in a.members && m != PlayerMember;
        assert m in Partners(a);
      }
      if |Partners(a)| > 0 {
        assert Partners(a)[0] in Partners(a);
      }
    }
  }
}
