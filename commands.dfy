/** The player's commands (App.tsx handle* functions) as updates of the
  * player, the alliance list and the competitors. A command whose checks fail
  * returns its inputs unchanged, as the handlers return `prevPlayer`. */
module Commands {
  import opened Common
  import opened Model
  import opened RouteEconomics

  const AllianceFormationCost: real := 100000000.0
  const LeavePenalty: real := 5.0
  /** 80% of the value is lost over 25 years. */
  const MaxDepreciation: real := 0.8
  const DepreciationPerYear: real := 0.032

  // ---------------------------------------------------------------------
  // Purchase and sale

  /** Buying is refused when the cash is below the price; otherwise the price
    * is paid and one idle aircraft of that model joins the fleet. */
  function PurchaseAircraft(p: Player, m: AircraftModel, newId: AircraftId, today: int): (q: Player)
    ensures p.cash < m.price as real ==> q == p
    ensures p.cash >= m.price as real ==>
              q == p.(cash := p.cash - m.price as real,
                      fleet := p.fleet + [AircraftInstance(newId, m.id, today, Idle, None)])
    ensures q == p || q.cash >= 0.0
  {
    if p.cash < m.price as real then p
    else p.(cash := p.cash - m.price as real, fleet := p.fleet + [AircraftInstance(newId, m.id, today, Idle, None)])
  }

  /** The share of the price an aircraft keeps after `ageInYears`. */
  function SaleFactor(ageInYears: real): real {
    1.0 - Min(MaxDepreciation, ageInYears * DepreciationPerYear)
  }

  /** The price scaled by the kept share, before rounding. */
  function Depreciated(price: real, factor: real): real {
    price * factor
  }

  /** The sale price: the depreciated price rounded to a whole unit. */
  function SalePrice(price: int, ageInYears: real): int {
    Round(Depreciated(price as real, SaleFactor(ageInYears)))
  }

  /** The kept share falls with age from 1 to its floor of a fifth. */
  lemma SaleFactorBounds(age: real, older: real)
    requires 0.0 <= age <= older
    ensures 0.2 <= SaleFactor(older) <= SaleFactor(age) <= 1.0
  {
  }

  /** Rounding a price scaled by a factor in [0.2, 1] stays between the
    * rounded fifth and the rounded price, and follows the factor. */
  lemma DepreciatedBounds(x: real, g: real, f: real)
    requires x >= 0.0 && 0.2 <= g <= f <= 1.0
    ensures Round(0.2 * x) <= Round(Depreciated(x, f)) <= Round(x)
    ensures Round(Depreciated(x, g)) <= Round(Depreciated(x, f))
  {
    ScaledOrder(x, 0.2, f);
    ScaledOrder(x, g, f);
    ScaledOrder(x, f, 1.0);
  }

  /** A larger factor gives a larger (or equal) rounded price. */
  lemma ScaledOrder(x: real, g: real, f: real)
    requires x >= 0.0 && g <= f
    ensures Round(Depreciated(x, g)) <= Round(Depreciated(x, f))
  {
    var low, high := x * g, x * f;
    MulLeft(x, g, f);
    RoundMonotone(low, high);
  }

  /** For a non-negative age the sale price lies between a fifth of the price
    * (rounded) and the price, and an older aircraft never sells for more. */
  lemma SalePriceBounds(price: nat, age: real, older: real)
    requires 0.0 <= age <= older
    ensures Round(0.2 * price as real) <= SalePrice(price, age) <= price
    ensures SalePrice(price, older) <= SalePrice(price, age)
  {
    var x, f, g := price as real, SaleFactor(age), SaleFactor(older);
    SaleFactorBounds(age, older);
    DepreciatedBounds(x, g, f);
    RoundIntegral(price);
  }

  datatype SaleRefusal = NoSuchAircraft | AircraftInUse | UnknownModel

  /** Why a sale is refused, if it is. */
  function SaleCheck(p: Player, id: AircraftId, models: seq<AircraftModel>): Option<SaleRefusal> {
    var a := FindAircraft(p.fleet, id);
    if a.None? then Some(NoSuchAircraft)
    else if a.value.status != Idle then Some(AircraftInUse)
    else if ModelOf(models, a.value).None? then Some(UnknownModel)
    else None
  }

  predicate NotId(a: AircraftInstance, id: AircraftId) { a.id != id }

  /** Selling is refused for a missing aircraft, one in service or one of an
    * unknown model; otherwise the depreciated price is paid in and every
    * aircraft with that id leaves the fleet. */
  function SellAircraft(p: Player, id: AircraftId, models: seq<AircraftModel>, today: int): (q: Player)
    ensures SaleCheck(p, id, models).Some? ==> q == p
    ensures SaleCheck(p, id, models).None? ==>
              var a := FindAircraft(p.fleet, id).value;
              q == p.(cash := p.cash + SalePrice(ModelOf(models, a).value.price, AgeInYears(today, a.purchaseDay)) as real,
                      fleet := Filter(p.fleet, (b: AircraftInstance) => NotId(b, id))) &&
              forall b :: b in q.fleet <==> b in p.fleet && b.id != id
  {
    if SaleCheck(p, id, models).Some? then p
    else
      var a := FindAircraft(p.fleet, id).value;
      var m := ModelOf(models, a).value;
      p.(cash := p.cash + SalePrice(m.price, AgeInYears(today, a.purchaseDay)) as real,
         fleet := Filter(p.fleet, (b: AircraftInstance) => NotId(b, id)))
  }

  // ---------------------------------------------------------------------
  // Routes

  /** A new route between two catalog airports, with no aircraft, the
    * standard fare rounded to a whole number and the catalog base demand;
    * refused when either airport is unknown. */
  function CreateRoute(p: Player, airports: seq<Airport>, origin: string, destination: string,
                       distance: real, routeId: string): (q: Player)
    ensures FindAirport(airports, origin).None? || FindAirport(airports, destination).None? ==> q == p
    ensures FindAirport(airports, origin).Some? && FindAirport(airports, destination).Some? ==>
              q.fleet == p.fleet && |q.routes| == |p.routes| + 1 && q.routes[..|p.routes|] == p.routes &&
              var r := q.routes[|p.routes|];
              r.id == routeId && r.origin == origin && r.destination == destination && r.distance == distance &&
              r.aircraftId.None? && r.ticketPrice == Round(StandardFare(distance)) as real && r.baseDemand >= 20.0 &&
              r.baseDemand == BaseDemand(FindAirport(airports, origin).value.size,
                                         FindAirport(airports, destination).value.size, distance) &&
              q == p.(routes := p.routes + [r])
  {
    var o := FindAirport(airports, origin);
    var d := FindAirport(airports, destination);
    if o.None? || d.None? then p
    else
      var r := Route(routeId, origin, destination, distance, None, Round(StandardFare(distance)) as real,
                     BaseDemand(o.value.size, d.value.size, distance));
      assert (p.routes + [r])[..|p.routes|] == p.routes;
      p.(routes := p.routes + [r])
  }

  /** The aircraft leaves service and forgets its route. */
  function Grounded(a: AircraftInstance): AircraftInstance { a.(status := Idle, routeId := None) }

  /** The fleet after the old aircraft of a route, if any, is grounded. */
  function GroundRouteAircraft(fleet: seq<AircraftInstance>, route: Route): seq<AircraftInstance> {
    if route.aircraftId.None? then fleet
    else
      var i := AircraftIndex(fleet, route.aircraftId.value);
      if i.None? then fleet else fleet[i.value := Grounded(fleet[i.value])]
  }

  /** The aircraft goes into service on the route. */
  function PutInService(a: AircraftInstance, routeId: string): AircraftInstance {
    a.(status := InService, routeId := Some(routeId))
  }

  /** Assignment: the route's previous aircraft is grounded, the named
    * aircraft (if the fleet has it) goes into service on the route, and the
    * route names the aircraft. An unknown route changes nothing. */
  function AssignAircraft(p: Player, routeId: string, aircraftId: AircraftId): (q: Player)
    ensures RouteIndex(p.routes, routeId).None? ==> q == p
    ensures RouteIndex(p.routes, routeId).Some? ==>
              var i := RouteIndex(p.routes, routeId).value;
              q.routes == p.routes[i := p.routes[i].(aircraftId := Some(aircraftId))] && |q.fleet| == |p.fleet|
    ensures RouteIndex(p.routes, routeId).Some? ==>
              var route := p.routes[RouteIndex(p.routes, routeId).value];
              q == p.(fleet := q.fleet, routes := q.routes) &&
              forall j :: 0 <= j < |p.fleet| ==>
                q.fleet[j] == (if AircraftIndex(p.fleet, aircraftId) == Some(j) then PutInService(p.fleet[j], routeId)
                               else if route.aircraftId.Some? && AircraftIndex(p.fleet, route.aircraftId.value) == Some(j)
                               then Grounded(p.fleet[j])
                               else p.fleet[j])
  {
    var ri := RouteIndex(p.routes, routeId);
    if ri.None? then p
    else
      var route := p.routes[ri.value];
      var fleet1 := GroundRouteAircraft(p.fleet, route);
      SameIds(fleet1, p.fleet);
      SameIdsSameIndex(fleet1, p.fleet, aircraftId);
      var ni := AircraftIndex(fleet1, aircraftId);
      var fleet2 := if ni.Some? then fleet1[ni.value := PutInService(fleet1[ni.value], routeId)] else fleet1;
      p.(fleet := fleet2, routes := p.routes[ri.value := route.(aircraftId := Some(aircraftId))])
  }

  /** Unassignment: the route's aircraft is grounded and the route names none.
    * An unknown route, or one without an aircraft, changes nothing. */
  function UnassignAircraft(p: Player, routeId: string): (q: Player)
    ensures RouteIndex(p.routes, routeId).None? ==> q == p
    ensures RouteIndex(p.routes, routeId).Some? && p.routes[RouteIndex(p.routes, routeId).value].aircraftId.None? ==> q == p
    ensures RouteIndex(p.routes, routeId).Some? ==>
              var i := RouteIndex(p.routes, routeId).value;
              q.routes == p.routes[i := p.routes[i].(aircraftId := None)] && |q.fleet| == |p.fleet|
    ensures RouteIndex(p.routes, routeId).Some? ==>
              var route := p.routes[RouteIndex(p.routes, routeId).value];
              q == p.(fleet := q.fleet, routes := q.routes) &&
              forall j :: 0 <= j < |p.fleet| ==>
                q.fleet[j] == (if route.aircraftId.Some? && AircraftIndex(p.fleet, route.aircraftId.value) == Some(j)
                               then Grounded(p.fleet[j]) else p.fleet[j])
  {
    var ri := RouteIndex(p.routes, routeId);
    if ri.None? then p
    else
      var route := p.routes[ri.value];
      if route.aircraftId.None? then p
      else p.(fleet := GroundRouteAircraft(p.fleet, route), routes := p.routes[ri.value := route.(aircraftId := None)])
  }

  /** Ids never change under the updates above, so neither do the id lists. */
  lemma SameIds(f: seq<AircraftInstance>, g: seq<AircraftInstance>)
    requires |f| == |g| && forall j :: 0 <= j < |f| ==> f[j].id == g[j].id
    ensures AircraftIds(f) == AircraftIds(g) && UniqueAircraftIds(f) == UniqueAircraftIds(g)
  {
  }

  /** Two fleets with the same ids find an aircraft at the same index. */
  lemma SameIdsSameIndex(f: seq<AircraftInstance>, g: seq<AircraftInstance>, id: AircraftId)
    requires AircraftIds(f) == AircraftIds(g)
    ensures AircraftIndex(f, id) == AircraftIndex(g, id)
  {
    assert |f| == |AircraftIds(f)| == |g|;
    assert forall j :: 0 <= j < |f| ==> f[j].id == AircraftIds(f)[j] == g[j].id;
  }

  /** Consistency with route `i` cut out: no aircraft names route `i`, and
    * what route `i` names is left open. */
  predicate LinkedExcept(fleet: seq<AircraftInstance>, routes: seq<Route>, i: nat) {
    UniqueAircraftIds(fleet) && UniqueRouteIds(routes) && i < |routes| &&
    (forall j :: 0 <= j < |fleet| ==> (fleet[j].status == InService <==> fleet[j].routeId.Some?)) &&
    (forall j :: 0 <= j < |fleet| ==> fleet[j].routeId != Some(routes[i].id)) &&
    (forall k, j :: 0 <= k < |routes| && k != i && 0 <= j < |fleet| ==>
       (routes[k].aircraftId == Some(fleet[j].id) <==> fleet[j].routeId == Some(routes[k].id))) &&
    (forall k :: 0 <= k < |routes| && k != i && routes[k].aircraftId.Some? ==> routes[k].aircraftId.value in AircraftIds(fleet)) &&
    (forall j :: 0 <= j < |fleet| && fleet[j].routeId.Some? ==> fleet[j].routeId.value in RouteIds(routes))
  }

  /** Grounding the old aircraft of route `i` changes only that aircraft and
    * leaves no aircraft naming the route. */
  lemma GroundRouteAircraftSpec(fleet: seq<AircraftInstance>, routes: seq<Route>, i: nat)
    requires Consistent(fleet, routes) && i < |routes|
    ensures var g := GroundRouteAircraft(fleet, routes[i]);
            |g| == |fleet| && AircraftIds(g) == AircraftIds(fleet) && LinkedExcept(g, routes, i) &&
            (forall j :: 0 <= j < |g| ==> g[j] == fleet[j] || (g[j] == Grounded(fleet[j]) && routes[i].aircraftId == Some(fleet[j].id)))
  {
    var g := GroundRouteAircraft(fleet, routes[i]);
    SameIds(g, fleet);
    if routes[i].aircraftId.Some? {
      ConsistentRouteAircraft(fleet, routes, i);
    }
    forall k, j | 0 <= k < |routes| && k != i && 0 <= j < |g|
      ensures routes[k].aircraftId == Some(g[j].id) <==> g[j].routeId == Some(routes[k].id)
    {
      if g[j] != fleet[j] {
        assert fleet[j].routeId == Some(routes[i].id);
        assert routes[k].id != routes[i].id;
      }
    }
  }

  /** Putting an unrouted aircraft into service on route `i` restores
    * consistency. */
  lemma RelinkConsistent(g: seq<AircraftInstance>, routes: seq<Route>, i: nat, n: nat)
    requires LinkedExcept(g, routes, i) && n < |g| && g[n].routeId.None?
    ensures Consistent(g[n := PutInService(g[n], routes[i].id)], routes[i := routes[i].(aircraftId := Some(g[n].id))])
  {
    var f := g[n := PutInService(g[n], routes[i].id)];
    var rs := routes[i := routes[i].(aircraftId := Some(g[n].id))];
    SameIds(f, g);
    assert RouteIds(rs) == RouteIds(routes);
    forall k, j | 0 <= k < |rs| && 0 <= j < |f|
      ensures rs[k].aircraftId == Some(f[j].id) <==> f[j].routeId == Some(rs[k].id)
    {
      if k != i && j == n {
        assert routes[k].id != routes[i].id;
      }
    }
    forall k | 0 <= k < |rs| && rs[k].aircraftId.Some? ensures rs[k].aircraftId.value in AircraftIds(f) {
      if k == i {
        assert AircraftIds(f)[n] == g[n].id;
      }
    }
    forall j | 0 <= j < |f| && f[j].routeId.Some? ensures f[j].routeId.value in RouteIds(rs) {
      if j == n {
        assert RouteIds(rs)[i] == routes[i].id;
      }
    }
  }

  /** Leaving route `i` without an aircraft restores consistency. */
  lemma UnlinkConsistent(g: seq<AircraftInstance>, routes: seq<Route>, i: nat)
    requires LinkedExcept(g, routes, i)
    ensures Consistent(g, routes[i := routes[i].(aircraftId := None)])
  {
    var rs := routes[i := routes[i].(aircraftId := None)];
    assert RouteIds(rs) == RouteIds(routes);
  }

  /** Assigning an idle aircraft of the fleet keeps the fleet and the routes
    * consistent; afterwards that aircraft is in service on the route. */
  lemma AssignKeepsConsistent(p: Player, routeId: string, aircraftId: AircraftId)
    requires Consistent(p.fleet, p.routes)
    requires AircraftIndex(p.fleet, aircraftId).Some? && p.fleet[AircraftIndex(p.fleet, aircraftId).value].status == Idle
    ensures var q := AssignAircraft(p, routeId, aircraftId);
            Consistent(q.fleet, q.routes) &&
            (RouteIndex(p.routes, routeId).Some? ==>
              var j := AircraftIndex(q.fleet, aircraftId);
              j.Some? && q.fleet[j.value].status == InService && q.fleet[j.value].routeId == Some(routeId))
  {
    var ri := RouteIndex(p.routes, routeId);
    if ri.Some? {
      var i := ri.value;
      var n := AircraftIndex(p.fleet, aircraftId).value;
      var g := GroundRouteAircraft(p.fleet, p.routes[i]);
      GroundRouteAircraftSpec(p.fleet, p.routes, i);
      SameIdsSameIndex(p.fleet, g, aircraftId);
      assert g[n].routeId.None?;
      var f := g[n := PutInService(g[n], routeId)];
      RelinkConsistent(g, p.routes, i, n);
      SameIds(f, g);
      SameIdsSameIndex(f, g, aircraftId);
    }
  }

  /** Unassigning keeps the fleet and the routes consistent, and afterwards
    * the route names no aircraft. */
  lemma UnassignKeepsConsistent(p: Player, routeId: string)
    requires Consistent(p.fleet, p.routes)
    ensures var q := UnassignAircraft(p, routeId);
            Consistent(q.fleet, q.routes) &&
            (RouteIndex(p.routes, routeId).Some? ==> q.routes[RouteIndex(p.routes, routeId).value].aircraftId.None?)
  {
    var ri := RouteIndex(p.routes, routeId);
    if ri.Some? && p.routes[ri.value].aircraftId.Some? {
      GroundRouteAircraftSpec(p.fleet, p.routes, ri.value);
      UnlinkConsistent(GroundRouteAircraft(p.fleet, p.routes[ri.value]), p.routes, ri.value);
    }
  }

  /** Opening a route with a fresh id keeps consistency. */
  lemma CreateRouteKeepsConsistent(p: Player, airports: seq<Airport>, origin: string, destination: string,
                                   distance: real, routeId: string)
    requires Consistent(p.fleet, p.routes) && routeId !in RouteIds(p.routes)
    ensures var q := CreateRoute(p, airports, origin, destination, distance, routeId);
            Consistent(q.fleet, q.routes)
  {
    var q := CreateRoute(p, airports, origin, destination, distance, routeId);
    if q != p {
      var r := q.routes[|p.routes|];
      assert q.routes == p.routes + [r];
      assert RouteIds(q.routes) == RouteIds(p.routes) + [routeId];
      forall a, b | 0 <= a < b < |q.routes| ensures q.routes[a].id != q.routes[b].id {
        if b == |p.routes| {
          assert RouteIds(p.routes)[a] == q.routes[a].id;
        }
      }
    }
  }

  /** Buying with a fresh id keeps consistency. */
  lemma PurchaseKeepsConsistent(p: Player, m: AircraftModel, newId: AircraftId, today: int)
    requires Consistent(p.fleet, p.routes) && newId !in AircraftIds(p.fleet)
    ensures var q := PurchaseAircraft(p, m, newId, today); Consistent(q.fleet, q.routes)
  {
    var q := PurchaseAircraft(p, m, newId, today);
    if q != p {
      var a := AircraftInstance(newId, m.id, today, Idle, None);
      assert q.fleet == p.fleet + [a];
      assert AircraftIds(q.fleet) == AircraftIds(p.fleet) + [newId];
      forall i, j | 0 <= i < j < |q.fleet| ensures q.fleet[i].id != q.fleet[j].id {
        if j == |p.fleet| {
          assert AircraftIds(p.fleet)[i] == q.fleet[i].id;
        }
      }
    }
  }

  /** An aircraft that is idle in a consistent state is named by no route. */
  lemma IdleUnrouted(p: Player, k2: nat)
    requires Consistent(p.fleet, p.routes) && k2 < |p.fleet| && p.fleet[k2].status == Idle
    ensures forall k :: 0 <= k < |p.routes| ==> p.routes[k].aircraftId != Some(p.fleet[k2].id)
  {
  }

  /** Every aircraft a route names survives the sale of an idle aircraft. */
  lemma SaleKeepsNamed(p: Player, id: AircraftId, models: seq<AircraftModel>, today: int)
    requires Consistent(p.fleet, p.routes) && SaleCheck(p, id, models).None?
    ensures var s := SellAircraft(p, id, models, today);
            forall k :: 0 <= k < |p.routes| && p.routes[k].aircraftId.Some? ==>
              p.routes[k].aircraftId.value in AircraftIds(s.fleet)
  {
    var s := SellAircraft(p, id, models, today);
    var sold := FindAircraft(p.fleet, id).value;
    var k2 :| 0 <= k2 < |p.fleet| && p.fleet[k2] == sold;
    IdleUnrouted(p, k2);
    forall k | 0 <= k < |p.routes| && p.routes[k].aircraftId.Some?
      ensures p.routes[k].aircraftId.value in AircraftIds(s.fleet)
    {
      IdKept(p.fleet, s.fleet, id, p.routes[k].aircraftId.value);
    }
  }

  /** An id other than `id` survives a removal of exactly the aircraft with id `id`. */
  lemma IdKept(before: seq<AircraftInstance>, after: seq<AircraftInstance>, id: AircraftId, x: AircraftId)
    requires forall b :: b in after <==> b in before && b.id != id
    requires x in AircraftIds(before) && x != id
    ensures x in AircraftIds(after)
  {
    var j :| 0 <= j < |before| && AircraftIds(before)[j] == x;
    assert before[j] in after;
    var j2 :| 0 <= j2 < |after| && after[j2] == before[j];
    assert AircraftIds(after)[j2] == x;
  }

  /** Selling keeps consistency. */
  lemma SaleKeepsConsistent(p: Player, id: AircraftId, models: seq<AircraftModel>, today: int)
    requires Consistent(p.fleet, p.routes)
    ensures var s := SellAircraft(p, id, models, today); Consistent(s.fleet, s.routes)
  {
    var s := SellAircraft(p, id, models, today);
    if SaleCheck(p, id, models).None? {
      FilterKeepsUnique(p.fleet, (b: AircraftInstance) => NotId(b, id), (a: AircraftInstance) => a.id);
      assert UniqueAircraftIds(s.fleet);
      SaleKeepsNamed(p, id, models, today);
      forall k, j | 0 <= k < |p.routes| && 0 <= j < |s.fleet|
        ensures p.routes[k].aircraftId == Some(s.fleet[j].id) <==> s.fleet[j].routeId == Some(p.routes[k].id)
      {
        assert s.fleet[j] in p.fleet;
      }
      forall j | 0 <= j < |s.fleet| ensures s.fleet[j].status == InService <==> s.fleet[j].routeId.Some? {
        assert s.fleet[j] in p.fleet;
      }
      forall j | 0 <= j < |s.fleet| && s.fleet[j].routeId.Some? ensures s.fleet[j].routeId.value in RouteIds(s.routes) {
        assert s.fleet[j] in p.fleet;
      }
    }
  }

  /** Every route whose id matches takes the new price; nothing else changes. */
  function UpdateTicketPrice(p: Player, routeId: string, price: real): (q: Player)
    ensures q == p.(routes := q.routes) && |q.routes| == |p.routes|
    ensures forall i :: 0 <= i < |q.routes| ==>
              q.routes[i] == (if p.routes[i].id == routeId then p.routes[i].(ticketPrice := price) else p.routes[i])
  {
    p.(routes := seq(|p.routes|, i requires 0 <= i < |p.routes| =>
                   if p.routes[i].id == routeId then p.routes[i].(ticketPrice := price) else p.routes[i]))
  }

  /** A price change keeps consistency, and a positive price keeps every
    * ticket price positive. */
  lemma UpdateTicketPriceKeeps(p: Player, routeId: string, price: real)
    requires Consistent(p.fleet, p.routes)
    ensures Consistent(UpdateTicketPrice(p, routeId, price).fleet, UpdateTicketPrice(p, routeId, price).routes)
    ensures price > 0.0 && (forall i :: 0 <= i < |p.routes| ==> p.routes[i].ticketPrice > 0.0) ==>
              forall i :: 0 <= i < |p.routes| ==> UpdateTicketPrice(p, routeId, price).routes[i].ticketPrice > 0.0
  {
    var q := UpdateTicketPrice(p, routeId, price);
    assert RouteIds(q.routes) == RouteIds(p.routes);
  }

  /** The hub becomes the chosen airport, which halves the fee at that end
    * of every route touching it. */
  function SetHub(p: Player, airportId: string): (q: Player)
    ensures q == p.(hubAirportId := Some(airportId))
    ensures forall r: Route :: (r.origin == airportId || r.destination == airportId) ==> DailyAirportFee(r, q.hubAirportId) < 1000.0
  {
    var q := p.(hubAirportId := Some(airportId));
    assert forall r: Route :: (r.origin == airportId || r.destination == airportId) ==> DailyAirportFee(r, q.hubAirportId) < 1000.0 by {
      forall r: Route | r.origin == airportId || r.destination == airportId
        ensures DailyAirportFee(r, q.hubAirportId) < 1000.0
      {
        DailyAirportFeeByHub(r, q.hubAirportId);
      }
    }
    q
  }

  // ---------------------------------------------------------------------
  // Research and marketing

  /** Research starts only when the cash covers the cost and nothing is being
    * researched; the cost is paid and the project becomes active today. */
  function StartResearch(p: Player, project: ResearchProject, today: int): (q: Player)
    ensures p.cash < project.cost || p.activeResearch.Some? ==> q == p
    ensures p.cash >= project.cost && p.activeResearch.None? ==>
              q == p.(cash := p.cash - project.cost, activeResearch := Some(ActiveResearch(project, today)))
    ensures q == p || q.cash >= 0.0
  {
    if p.cash < project.cost || p.activeResearch.Some? then p
    else p.(cash := p.cash - project.cost, activeResearch := Some(ActiveResearch(project, today)))
  }

  /** A campaign starts only when the cash covers it and no campaign is
    * running: it becomes the one active campaign, ending `durationDays` from
    * today, and a brand-awareness effect raises awareness, capped at 100. */
  function StartCampaign(p: Player, c: MarketingCampaign, today: int): (q: Player)
    ensures p.cash < c.cost || |p.activeCampaigns| > 0 ==> q == p
    ensures p.cash >= c.cost && |p.activeCampaigns| == 0 ==>
              q == p.(cash := p.cash - c.cost, brandAwareness := q.brandAwareness,
                      activeCampaigns := [ActiveCampaign(c, today, today + c.durationDays)]) &&
              q.brandAwareness == (if c.effects.brandAwareness.Some? && c.effects.brandAwareness.value != 0.0
                                   then Min(100.0, p.brandAwareness + c.effects.brandAwareness.value)
                                   else p.brandAwareness)
    ensures p.brandAwareness <= 100.0 ==> q.brandAwareness <= 100.0
    ensures q == p || q.cash >= 0.0
  {
    if p.cash < c.cost || |p.activeCampaigns| > 0 then p
    else
      var bump := c.effects.brandAwareness;
      var awareness := if bump.Some? && bump.value != 0.0 then Min(100.0, p.brandAwareness + bump.value)
                       else p.brandAwareness;
      p.(cash := p.cash - c.cost, brandAwareness := awareness,
         activeCampaigns := p.activeCampaigns + [ActiveCampaign(c, today, today + c.durationDays)])
  }

  // ---------------------------------------------------------------------
  // Alliances

  datatype AllianceWorld = AllianceWorld(player: Player, alliances: seq<Alliance>, competitors: seq<Competitor>)

  /** Forming is refused when the player is already in an alliance or has less
    * than 100,000,000; otherwise the fee is paid and a new alliance whose
    * only member is the player is appended. */
  function FormAlliance(w: AllianceWorld, name: string, allianceId: string): (r: AllianceWorld)
    ensures w.player.allianceId.Some? || w.player.cash < AllianceFormationCost ==> r == w
    ensures w.player.allianceId.None? && w.player.cash >= AllianceFormationCost ==>
              r.player == w.player.(cash := w.player.cash - 100000000.0, allianceId := Some(allianceId)) &&
              r.alliances == w.alliances + [Alliance(allianceId, name, [PlayerMember])] &&
              r.competitors == w.competitors && r.player.cash >= 0.0
  {
    if w.player.allianceId.Some? || w.player.cash < AllianceFormationCost then w
    else
      AllianceWorld(w.player.(cash := w.player.cash - AllianceFormationCost, allianceId := Some(allianceId)),
                    w.alliances + [Alliance(allianceId, name, [PlayerMember])],
                    w.competitors)
  }

  /** Duplicates removed: the first occurrence of every element, in order. */
  function Dedupe(xs: seq<string>): (r: seq<string>)
    ensures forall x :: x in r <==> x in xs
    ensures forall i, j :: 0 <= i < j < |r| ==> r[i] != r[j]
  {
    if |xs| == 0 then []
    else
      var d := Dedupe(xs[..|xs| - 1]);
      assert forall x :: x in xs <==> x in xs[..|xs| - 1] || x == xs[|xs| - 1] by {
        assert xs == xs[..|xs| - 1] + [xs[|xs| - 1]];
      }
      if xs[|xs| - 1] in d then d else d + [xs[|xs| - 1]]
  }

  /** A list without repeats is its own dedupe. */
  lemma {:induction false} DedupeDistinct(xs: seq<string>)
    requires forall i, j :: 0 <= i < j < |xs| ==> xs[i] != xs[j]
    ensures Dedupe(xs) == xs
  {
    if |xs| > 0 {
      var init := xs[..|xs| - 1];
      DedupeDistinct(init);
      assert xs[|xs| - 1] !in init;
      assert init + [xs[|xs| - 1]] == xs;
    }
  }

  function WithMember(a: Alliance, member: string): Alliance {
    a.(members := Dedupe(a.members + [member]))
  }

  /** An invitation is always accepted: the player's alliance gains the
    * competitor as a member (once) and the competitor takes the alliance id.
    * Without an alliance nothing changes. */
  function Invite(w: AllianceWorld, competitorId: string): (r: AllianceWorld)
    ensures w.player.allianceId.None? ==> r == w
    ensures r.player == w.player && |r.alliances| == |w.alliances| && |r.competitors| == |w.competitors|
    ensures w.player.allianceId.Some? ==>
              (forall i :: 0 <= i < |w.alliances| ==>
                 r.alliances[i] == (if w.alliances[i].id == w.player.allianceId.value
                                    then WithMember(w.alliances[i], competitorId) else w.alliances[i])) &&
              (forall k :: 0 <= k < |w.competitors| ==>
                 r.competitors[k] == (if w.competitors[k].id == competitorId
                                      then w.competitors[k].(allianceId := w.player.allianceId) else w.competitors[k]))
  {
    if w.player.allianceId.None? then w
    else
      var id := w.player.allianceId.value;
      AllianceWorld(w.player,
                    seq(|w.alliances|, i requires 0 <= i < |w.alliances| =>
                          if w.alliances[i].id == id then WithMember(w.alliances[i], competitorId) else w.alliances[i]),
                    seq(|w.competitors|, k requires 0 <= k < |w.competitors| =>
                          if w.competitors[k].id == competitorId then w.competitors[k].(allianceId := w.player.allianceId)
                          else w.competitors[k]))
  }

  /** A member list without repeats gains the invitee exactly once: unchanged
    * if it was already there, appended otherwise. */
  lemma InviteAddsOnce(a: Alliance, member: string)
    requires forall i, j :: 0 <= i < j < |a.members| ==> a.members[i] != a.members[j]
    ensures member in a.members ==> WithMember(a, member).members == a.members
    ensures member !in a.members ==> WithMember(a, member).members == a.members + [member]
  {
    var xs := a.members + [member];
    DedupeDistinct(a.members);
    assert xs[..|xs| - 1] == a.members;
  }

  predicate NotPlayer(m: string) { m != PlayerMember }
  predicate OtherAlliance(a: Alliance, id: string) { a.id != id }

  /** Leaving: the player loses its alliance and 5 satisfaction (not below 0).
    * If the alliance is found and fewer than two other members remain, it is
    * dissolved and those members lose their alliance id; otherwise it keeps
    * its other members. Without an alliance nothing changes. */
  function Leave(w: AllianceWorld): (r: AllianceWorld)
    ensures w.player.allianceId.None? ==> r == w
    ensures w.player.allianceId.Some? ==>
              r.player == w.player.(allianceId := None, satisfaction := Max(0.0, w.player.satisfaction - LeavePenalty))
  {
    if w.player.allianceId.None? then w
    else
      var id := w.player.allianceId.value;
      var player := w.player.(allianceId := None, satisfaction := Max(0.0, w.player.satisfaction - LeavePenalty));
      var alliance := FindAlliance(w.alliances, id);
      if alliance.None? then AllianceWorld(player, w.alliances, w.competitors)
      else
        var remaining := Filter(alliance.value.members, NotPlayer);
        if |remaining| < 2 then
          AllianceWorld(player,
                        Filter(w.alliances, (a: Alliance) => OtherAlliance(a, id)),
                        seq(|w.competitors|, k requires 0 <= k < |w.competitors| =>
                              if w.competitors[k].id in remaining then w.competitors[k].(allianceId := None)
                              else w.competitors[k]))
        else
          AllianceWorld(player,
                        seq(|w.alliances|, i requires 0 <= i < |w.alliances| =>
                              if w.alliances[i].id == id then w.alliances[i].(members := remaining) else w.alliances[i]),
                        w.competitors)
  }

  /** After leaving, the player belongs to no alliance and appears in no
    * member list of the alliance it left. An alliance that is not found
    * leaves the lists alone. A surviving alliance keeps its other members, in
    * their order, and nothing else changes. A dissolved alliance is gone from
    * the list, which otherwise keeps its order, and exactly its remaining
    * members lose their alliance id. */
  lemma LeaveSpec(w: AllianceWorld)
    requires w.player.allianceId.Some?
    ensures var id := w.player.allianceId.value;
            var r := Leave(w);
            r.player.allianceId.None? && r.player.satisfaction >= 0.0 &&
            (forall a :: a in r.alliances && a.id == id ==> PlayerMember !in a.members) &&
            (FindAlliance(w.alliances, id).None? ==> r.alliances == w.alliances && r.competitors == w.competitors) &&
            (FindAlliance(w.alliances, id).Some? &&
             |Filter(FindAlliance(w.alliances, id).value.members, NotPlayer)| >= 2 ==>
               var remaining := Filter(FindAlliance(w.alliances, id).value.members, NotPlayer);
               r.competitors == w.competitors && |r.alliances| == |w.alliances| &&
               forall i :: 0 <= i < |w.alliances| ==>
                 r.alliances[i] == (if w.alliances[i].id == id then w.alliances[i].(members := remaining)
                                    else w.alliances[i])) &&
            (FindAlliance(w.alliances, id).Some? &&
             |Filter(FindAlliance(w.alliances, id).value.members, NotPlayer)| < 2 ==>
               var remaining := Filter(FindAlliance(w.alliances, id).value.members, NotPlayer);
               r.alliances == Filter(w.alliances, (a: Alliance) => OtherAlliance(a, id)) &&
               (forall a :: a in r.alliances ==> a.id != id) &&
               |r.competitors| == |w.competitors| &&
               (forall k :: 0 <= k < |w.competitors| ==>
                  r.competitors[k] == (if w.competitors[k].id in remaining then w.competitors[k].(allianceId := None)
                                       else w.competitors[k])) &&
               (forall k :: 0 <= k < |r.competitors| && w.competitors[k].id in FindAlliance(w.alliances, id).value.members
                                                    && w.competitors[k].id != PlayerMember
                  ==> r.competitors[k].allianceId.None?))
  {
    var id := w.player.allianceId.value;
    var r := Leave(w);
    var alliance := FindAlliance(w.alliances, id);
    if alliance.Some? {
      var remaining := Filter(alliance.value.members, NotPlayer);
      if |remaining| >= 2 {
        forall a | a in r.alliances && a.id == id ensures PlayerMember !in a.members {
          var i :| 0 <= i < |r.alliances| && r.alliances[i] == a;
        }
      }
    }
  }
}
