/** The monthly turn of the AI competitors (App.tsx, "AI Competitor Logic"):
  * flat-load financials, a purchase, a route expansion and the forming of AI
  * alliances. Every random draw is a parameter: a `bool` for each "chance"
  * and a `nat` for each pick, taken modulo the length of the list picked from. */
module AiTurn {
  import opened Common
  import opened Model
  import opened RouteEconomics
  import opened Settlement

  const AiLoadFactor: real := 0.7
  const AiPurchaseCashShare: real := 0.5
  const OrganicOriginMinSize: int := 2

  /** The player's fuel price when it is set and non-zero, the base price otherwise. */
  function AiFuelPrice(playerFuelPrice: real): (r: real)
    ensures r != 0.0
    ensures playerFuelPrice != 0.0 ==> r == playerFuelPrice
  {
    if playerFuelPrice != 0.0 then playerFuelPrice else 1.2
  }

  // ---------------------------------------------------------------------
  // Financials

  /** The competitor side finds a route's aircraft by the aircraft's routeId. */
  function AiRouteModel(fleet: seq<AircraftInstance>, models: seq<AircraftModel>, route: Route): Option<AircraftModel> {
    var aircraft := Find(fleet, (a: AircraftInstance) => a.routeId == Some(route.id));
    if aircraft.None? then None else ModelOf(models, aircraft.value)
  }

  /** 70% of the seats every day at the standard fare. */
  function AiRouteIncome(m: AircraftModel, route: Route, days: real): real {
    m.seats as real * AiLoadFactor * StandardFare(route.distance) * days
  }

  /** Fuel for the return flight plus two un-discounted airport fees a day. */
  function AiRouteCost(m: AircraftModel, route: Route, days: real, fuelPrice: real): real {
    route.distance * 2.0 * days * m.fuelEfficiency * fuelPrice + BaseAirportFeePerFlight * 2.0 * days
  }

  function AiIncome(fleet: seq<AircraftInstance>, models: seq<AircraftModel>, routes: seq<Route>, days: real): real {
    if |routes| == 0 then 0.0
    else
      var m := AiRouteModel(fleet, models, routes[0]);
      (if m.Some? then AiRouteIncome(m.value, routes[0], days) else 0.0) + AiIncome(fleet, models, routes[1..], days)
  }

  function AiRouteCosts(fleet: seq<AircraftInstance>, models: seq<AircraftModel>, routes: seq<Route>,
                        days: real, fuelPrice: real): real {
    if |routes| == 0 then 0.0
    else
      var m := AiRouteModel(fleet, models, routes[0]);
      (if m.Some? then AiRouteCost(m.value, routes[0], days, fuelPrice) else 0.0)
        + AiRouteCosts(fleet, models, routes[1..], days, fuelPrice)
  }

  /** The month's net result: route income less route costs and fleet maintenance. */
  function AiNet(c: Competitor, models: seq<AircraftModel>, days: real, fuelPrice: real): real {
    AiIncome(c.fleet, models, c.routes, days)
      - (AiRouteCosts(c.fleet, models, c.routes, days, fuelPrice) + FleetMaintenance(c.fleet, models))
  }

  /** The competitor after the month's financials: the net result added to its cash. */
  function Financials(c: Competitor, models: seq<AircraftModel>, days: real, fuelPrice: real): (r: Competitor)
    ensures r.fleet == c.fleet && r.routes == c.routes && r.allianceId == c.allianceId
  {
    c.(cash := c.cash + AiNet(c, models, days, fuelPrice))
  }

  /** The route forEach and the maintenance reduce, applied to the cash. */
  method SimulateFinancials(c: Competitor, models: seq<AircraftModel>, days: real, fuelPrice: real)
    returns (r: Competitor)
    ensures r == Financials(c, models, days, fuelPrice)
  {
    var income, expenses := 0.0, 0.0;
    var i := 0;
    while i < |c.routes|
      invariant 0 <= i <= |c.routes|
      invariant income + AiIncome(c.fleet, models, c.routes[i..], days) == AiIncome(c.fleet, models, c.routes, days)
      invariant expenses + AiRouteCosts(c.fleet, models, c.routes[i..], days, fuelPrice)
                == AiRouteCosts(c.fleet, models, c.routes, days, fuelPrice)
    {
      assert c.routes[i..][1..] == c.routes[i + 1..];
      var m := AiRouteModel(c.fleet, models, c.routes[i]);
      if m.Some? {
        income := income + AiRouteIncome(m.value, c.routes[i], days);
        expenses := expenses + AiRouteCost(m.value, c.routes[i], days, fuelPrice);
      }
      i := i + 1;
    }
    expenses := expenses + FleetMaintenance(c.fleet, models);
    r := c.(cash := c.cash + (income - expenses));
  }

  /** A competitor's flat-load income is never negative, and with no routes
    * its month costs exactly the fleet's maintenance. */
  lemma {:induction false} AiIncomeNonNegative(fleet: seq<AircraftInstance>, models: seq<AircraftModel>,
                                               routes: seq<Route>, days: real)
    requires forall m :: m in models ==> m.seats >= 0
    requires forall r :: r in routes ==> r.distance >= 0.0
    requires days >= 0.0
    ensures AiIncome(fleet, models, routes, days) >= 0.0
    ensures |routes| == 0 ==>
              AiIncome(fleet, models, routes, days) == 0.0 && AiRouteCosts(fleet, models, routes, days, 1.0) == 0.0
  {
    if |routes| > 0 {
      assert routes[0] in routes;
      forall r | r in routes[1..] ensures r.distance >= 0.0 { }
      AiIncomeNonNegative(fleet, models, routes[1..], days);
      var m := AiRouteModel(fleet, models, routes[0]);
      if m.Some? {
        assert m.value in models;
        var fare := StandardFare(routes[0].distance);
        assert m.value.seats as real * AiLoadFactor >= 0.0;
        MulMonotone(0.0, m.value.seats as real * AiLoadFactor, fare, days);
      }
    }
  }

  // ---------------------------------------------------------------------
  // Purchase

  /** The catalog models costing less than half of the cash, in catalog order. */
  function Affordable(models: seq<AircraftModel>, cash: real): seq<AircraftModel> {
    Filter(models, (m: AircraftModel) => m.price as real < cash * AiPurchaseCashShare)
  }

  /** The 20% purchase: when the draw fires and some model costs less than half
    * the cash, buy the picked one. */
  function AiPurchase(c: Competitor, models: seq<AircraftModel>, roll: bool, pick: nat,
                      newId: AircraftId, today: int): (r: Competitor)
    ensures r == c || (
      roll && |r.fleet| == |c.fleet| + 1 &&
      var bought := r.fleet[|c.fleet|];
      r == c.(cash := r.cash, fleet := c.fleet + [bought]) &&
      bought == AircraftInstance(newId, bought.modelId, today, Idle, None) &&
      FindModel(models, bought.modelId).Some? &&
      exists m :: m in models && m.id == bought.modelId && m.price as real < c.cash * 0.5 &&
                  r.cash == c.cash - m.price as real)
    ensures r != c ==> r.cash > c.cash * 0.5
    ensures |r.fleet| == |c.fleet| + 1 <==>
              roll && exists m :: m in models && m.price as real < c.cash * AiPurchaseCashShare
    ensures |r.fleet| == |c.fleet| + 1 ==>
              var a := Affordable(models, c.cash);
              |a| > 0 && r.fleet[|c.fleet|].modelId == a[pick % |a|].id && r.cash == c.cash - a[pick % |a|].price as real
  {
    var affordable := Affordable(models, c.cash);
    if !roll || |affordable| == 0 then c
    else
      var m := affordable[pick % |affordable|];
      assert m in affordable;
      var bought := AircraftInstance(newId, m.id, today, Idle, None);
      var r := c.(cash := c.cash - m.price as real, fleet := c.fleet + [bought]);
      assert r.fleet[|c.fleet|] == bought;
      assert FindModel(models, m.id).Some? by {
        assert m in models && m.id == m.id;
      }
      r
  }

  // ---------------------------------------------------------------------
  // Route expansion

  predicate IsIdle(a: AircraftInstance) { a.status == Idle }

  /** The draws and the generated id of one expansion. */
  datatype ExpansionChoice = ExpansionChoice(
    competeRoll: bool, targetPick: nat, organicRoll: bool,
    originPick: nat, destinationPick: nat, routeId: string)

  /** A player route the competitor may copy: flown, within range, and not an
    * airport pair the competitor already serves. */
  predicate Target(c: Competitor, range: real, r: Route) {
    r.aircraftId.Some? && r.distance < range && !FliesPair(c.routes, r.origin, r.destination)
  }

  /** The player routes the competitor may copy, in the player's order. */
  function CompeteTargets(c: Competitor, range: real, playerRoutes: seq<Route>): seq<Route> {
    Filter(playerRoutes, (r: Route) => Target(c, range, r))
  }

  /** The competitor belongs to the player's alliance. */
  predicate AlliedWithPlayer(c: Competitor, playerAlliance: Option<string>) {
    playerAlliance.Some? && playerAlliance == c.allianceId
  }

  /** Decision 1: copy a player route (30% draw, never when allied with the
    * player). A route is chosen exactly when the draw fires, the competitor
    * is not allied with the player, some player route is a target and both
    * airports of the picked target are known; it copies that target's
    * airports and distance, is flown by the idle aircraft at the standard
    * fare, and its base demand follows the route-creation formula. */
  function CompeteRoute(c: Competitor, playerRoutes: seq<Route>, playerAlliance: Option<string>,
                        airports: seq<Airport>, model: AircraftModel, idle: AircraftInstance,
                        ch: ExpansionChoice): (r: Option<Route>)
    ensures r.Some? ==> !FliesPair(c.routes, r.value.origin, r.value.destination)
                        && r.value.distance < model.range
    ensures var targets := CompeteTargets(c, model.range, playerRoutes);
            r.Some? <==> ch.competeRoll && !AlliedWithPlayer(c, playerAlliance) && |targets| > 0 &&
                         FindAirport(airports, targets[ch.targetPick % |targets|].origin).Some? &&
                         FindAirport(airports, targets[ch.targetPick % |targets|].destination).Some?
    ensures r.Some? ==>
              var targets := CompeteTargets(c, model.range, playerRoutes);
              |targets| > 0 &&
              var t := targets[ch.targetPick % |targets|];
              t in playerRoutes && t.aircraftId.Some? &&
              FindAirport(airports, t.origin).Some? && FindAirport(airports, t.destination).Some? &&
              r.value == Route(ch.routeId, t.origin, t.destination, t.distance, Some(idle.id), StandardFare(t.distance),
                               BaseDemand(FindAirport(airports, t.origin).value.size,
                                          FindAirport(airports, t.destination).value.size, t.distance))
  {
    if |playerRoutes| > 0 && ch.competeRoll && !AlliedWithPlayer(c, playerAlliance) then
      var targets := CompeteTargets(c, model.range, playerRoutes);
      if |targets| == 0 then None
      else
        var t := targets[ch.targetPick % |targets|];
        assert t in targets;
        var origin := FindAirport(airports, t.origin);
        var destination := FindAirport(airports, t.destination);
        if origin.Some? && destination.Some? then
          Some(Route(ch.routeId, t.origin, t.destination, t.distance, Some(idle.id),
                     StandardFare(t.distance), BaseDemand(origin.value.size, destination.value.size, t.distance)))
        else None
    else None
  }

  /** The possible origins of an organic route: airports of size above 2. */
  function OrganicOrigins(airports: seq<Airport>): seq<Airport> {
    Filter(airports, (a: Airport) => a.size > OrganicOriginMinSize)
  }

  /** The possible destinations from `o`: another airport within the aircraft's
    * range whose pair with `o` the competitor does not serve. */
  function OrganicDestinations(c: Competitor, airports: seq<Airport>, dist: (Airport, Airport) -> real,
                               range: real, o: Airport): seq<Airport> {
    Filter(airports, (a: Airport) => a.id != o.id && dist(o, a) < range && !FliesPair(c.routes, o.id, a.id))
  }

  /** Decision 2: a random origin of size above 2 and a random reachable
    * destination the competitor does not serve yet (50% draw). A route is
    * chosen exactly when the draw fires, some origin exists and the picked
    * origin has a destination; it joins the picked origin and destination. */
  function OrganicRoute(c: Competitor, airports: seq<Airport>, dist: (Airport, Airport) -> real,
                        model: AircraftModel, idle: AircraftInstance, ch: ExpansionChoice): (r: Option<Route>)
    ensures r.Some? ==> !FliesPair(c.routes, r.value.origin, r.value.destination)
                        && r.value.origin != r.value.destination && r.value.distance < model.range
    ensures var origins := OrganicOrigins(airports);
            r.Some? <==> ch.organicRoll && |origins| > 0 &&
                         |OrganicDestinations(c, airports, dist, model.range, origins[ch.originPick % |origins|])| > 0
    ensures r.Some? ==>
              var origins := OrganicOrigins(airports);
              |origins| > 0 &&
              var o := origins[ch.originPick % |origins|];
              var ds := OrganicDestinations(c, airports, dist, model.range, o);
              |ds| > 0 &&
              var d := ds[ch.destinationPick % |ds|];
              o in airports && o.size > OrganicOriginMinSize && d in airports &&
              r.value == Route(ch.routeId, o.id, d.id, dist(o, d), Some(idle.id), StandardFare(dist(o, d)),
                               BaseDemand(o.size, d.size, dist(o, d)))
  {
    if !ch.organicRoll then None
    else
      var origins := OrganicOrigins(airports);
      if |origins| == 0 then None
      else
        var o := origins[ch.originPick % |origins|];
        assert o in origins;
        var destinations := OrganicDestinations(c, airports, dist, model.range, o);
        if |destinations| == 0 then None
        else
          var d := destinations[ch.destinationPick % |destinations|];
          assert d in destinations;
          var distance := dist(o, d);
          Some(Route(ch.routeId, o.id, d.id, distance, Some(idle.id), StandardFare(distance),
                     BaseDemand(o.size, d.size, distance)))
  }

  /** The expansion step: the first idle aircraft with a known model takes the
    * competing route if one was chosen, else the organic one. */
  function Expand(c: Competitor, playerRoutes: seq<Route>, playerAlliance: Option<string>,
                  airports: seq<Airport>, models: seq<AircraftModel>, dist: (Airport, Airport) -> real,
                  ch: ExpansionChoice): Competitor
  {
    var idleIndex := FindIndex(c.fleet, IsIdle);
    if idleIndex.None? then c
    else
      var idle := c.fleet[idleIndex.value];
      var model := ModelOf(models, idle);
      if model.None? then c
      else
        var compete := CompeteRoute(c, playerRoutes, playerAlliance, airports, model.value, idle, ch);
        var route := if compete.Some? then compete
                     else OrganicRoute(c, airports, dist, model.value, idle, ch);
        if route.None? then c
        else
          var index := AircraftIndex(c.fleet, idle.id);
          if index.None? then c
          else
            c.(fleet := c.fleet[index.value := idle.(status := InService, routeId := Some(route.value.id))],
               routes := c.routes + [route.value])
  }

  /** An expansion either changes nothing, or appends one route whose airport
    * pair the competitor did not serve, flown by its first idle aircraft,
    * which is now in service on that route; nothing else changes. */
  lemma ExpandSpec(c: Competitor, playerRoutes: seq<Route>, playerAlliance: Option<string>,
                   airports: seq<Airport>, models: seq<AircraftModel>, dist: (Airport, Airport) -> real,
                   ch: ExpansionChoice)
    requires UniqueAircraftIds(c.fleet)
    ensures var r := Expand(c, playerRoutes, playerAlliance, airports, models, dist, ch);
            r == c || (
              FindIndex(c.fleet, IsIdle).Some? &&
              var j := FindIndex(c.fleet, IsIdle).value;
              |r.routes| == |c.routes| + 1 && r.routes[..|c.routes|] == c.routes &&
              var route := r.routes[|c.routes|];
              !FliesPair(c.routes, route.origin, route.destination) &&
              route.id == ch.routeId && route.aircraftId == Some(c.fleet[j].id) &&
              ModelOf(models, c.fleet[j]).Some? && route.distance < ModelOf(models, c.fleet[j]).value.range &&
              r.fleet == c.fleet[j := c.fleet[j].(status := InService, routeId := Some(route.id))] &&
              r.cash == c.cash && r.id == c.id && r.allianceId == c.allianceId)
  {
    var r := Expand(c, playerRoutes, playerAlliance, airports, models, dist, ch);
    var idleIndex := FindIndex(c.fleet, IsIdle);
    if r != c {
      var j := idleIndex.value;
      var idle := c.fleet[j];
      var index := AircraftIndex(c.fleet, idle.id);
      assert index == Some(j);
      var route := r.routes[|c.routes|];
      assert r.routes == c.routes + [route];
    }
  }

  /** The competitor expands exactly when its first idle aircraft has a known
    * model and a competing or an organic route is chosen for it; the
    * competing route wins when both are. */
  lemma ExpandChoosesRoute(c: Competitor, playerRoutes: seq<Route>, playerAlliance: Option<string>,
                           airports: seq<Airport>, models: seq<AircraftModel>, dist: (Airport, Airport) -> real,
                           ch: ExpansionChoice)
    ensures var r := Expand(c, playerRoutes, playerAlliance, airports, models, dist, ch);
            var idle := FindIndex(c.fleet, IsIdle);
            var model := if idle.Some? then ModelOf(models, c.fleet[idle.value]) else None;
            var compete := if model.Some? then CompeteRoute(c, playerRoutes, playerAlliance, airports, model.value,
                                                            c.fleet[idle.value], ch) else None;
            var organic := if model.Some? then OrganicRoute(c, airports, dist, model.value, c.fleet[idle.value], ch)
                           else None;
            (r != c <==> compete.Some? || organic.Some?) &&
            (r != c ==> |r.routes| == |c.routes| + 1 &&
                        r.routes[|c.routes|] == (if compete.Some? then compete.value else organic.value))
  {
    var idleIndex := FindIndex(c.fleet, IsIdle);
    if idleIndex.Some? {
      var idle := c.fleet[idleIndex.value];
      assert AircraftIndex(c.fleet, idle.id).Some? by {
        assert idle in c.fleet && idle.id == idle.id;
      }
    }
  }

  /** A competitor allied with the player never copies a player route: its
    * expansion is the same as if the 30% draw had failed. */
  lemma AlliedNeverTargets(c: Competitor, playerRoutes: seq<Route>, playerAlliance: Option<string>,
                           airports: seq<Airport>, models: seq<AircraftModel>, dist: (Airport, Airport) -> real,
                           ch: ExpansionChoice)
    requires playerAlliance.Some? && playerAlliance == c.allianceId
    ensures Expand(c, playerRoutes, playerAlliance, airports, models, dist, ch)
         == Expand(c, playerRoutes, playerAlliance, airports, models, dist, ch.(competeRoll := false))
  {
  }

  // ---------------------------------------------------------------------
  // AI alliances

  /** The part of a name before its first space. */
  function FirstWord(s: string): (r: string)
    ensures r <= s && ' ' !in r
    ensures |r| < |s| ==> s[|r|] == ' '
  {
    if |s| == 0 || s[0] == ' ' then "" else [s[0]] + FirstWord(s[1..])
  }

  /** The draws and the generated id of the alliance step. The random sort
    * puts two distinct unaligned competitors first; `first` and `second`
    * choose them. */
  datatype AllianceChoice = AllianceChoice(roll: bool, first: nat, second: nat, allianceId: string)

  predicate IsUnaligned(c: Competitor) { c.allianceId.None? }

  function Unaligned(comps: seq<Competitor>): seq<Competitor> {
    Filter(comps, IsUnaligned)
  }

  /** Two distinct positions of a list of `n >= 2` elements. */
  function PickTwo(n: nat, first: nat, second: nat): (r: (nat, nat))
    requires n >= 2
    ensures r.0 < n && r.1 < n && r.0 != r.1
  {
    var i := first % n;
    (i, (i + 1 + second % (n - 1)) % n)
  }

  /** The 5% formation: when the draw fires and at least two competitors have
    * no alliance, two of them found a new alliance named after their first
    * words and both take its id. */
  function FormAiAlliance(comps: seq<Competitor>, ch: AllianceChoice): (seq<Competitor>, Option<Alliance>) {
    var pool := Unaligned(comps);
    if |pool| < 2 || !ch.roll then (comps, None)
    else
      var (i, j) := PickTwo(|pool|, ch.first, ch.second);
      var c1, c2 := pool[i], pool[j];
      var a := Alliance(ch.allianceId, FirstWord(c1.name) + " & " + FirstWord(c2.name) + " Union", [c1.id, c2.id]);
      (seq(|comps|, k requires 0 <= k < |comps| =>
         if comps[k].id == c1.id || comps[k].id == c2.id then comps[k].(allianceId := Some(a.id)) else comps[k]),
       Some(a))
  }

  predicate UniqueCompetitorIds(comps: seq<Competitor>) {
    forall i, j :: 0 <= i < j < |comps| ==> comps[i].id != comps[j].id
  }

  /** A new AI alliance has exactly two members, two different competitors
    * that had no alliance; they, and only they, now carry its id. */
  lemma FormAiAllianceSpec(comps: seq<Competitor>, ch: AllianceChoice)
    requires UniqueCompetitorIds(comps)
    requires forall k :: 0 <= k < |comps| ==> comps[k].allianceId != Some(ch.allianceId)
    ensures var (next, alliance) := FormAiAlliance(comps, ch);
            |next| == |comps| &&
            (alliance.Some? <==> ch.roll && |Unaligned(comps)| >= 2) &&
            (alliance.None? ==> next == comps) &&
            (alliance.Some? ==>
              alliance.value.id == ch.allianceId && |alliance.value.members| == 2 &&
              alliance.value.members[0] != alliance.value.members[1] &&
              (forall k :: 0 <= k < |comps| ==>
                 next[k] == (if comps[k].id in alliance.value.members
                             then comps[k].(allianceId := Some(ch.allianceId)) else comps[k])) &&
              (forall k :: 0 <= k < |comps| && comps[k].id in alliance.value.members ==> comps[k].allianceId.None?) &&
              (forall k :: 0 <= k < |comps| ==>
                 (next[k].allianceId == Some(ch.allianceId) <==> comps[k].id in alliance.value.members)))
  {
    var pool := Unaligned(comps);
    if |pool| >= 2 && ch.roll {
      var (i, j) := PickTwo(|pool|, ch.first, ch.second);
      var c1, c2 := pool[i], pool[j];
      assert c1 in pool && c2 in pool;
      UnalignedIndices(comps, pool, i, j);
    }
  }

  /** Two different positions of the unaligned list hold competitors with
    * different ids, and every competitor with one of those ids is unaligned. */
  lemma UnalignedIndices(comps: seq<Competitor>, pool: seq<Competitor>, i: nat, j: nat)
    requires UniqueCompetitorIds(comps)
    requires pool == Unaligned(comps)
    requires i < |pool| && j < |pool| && i != j
    ensures pool[i].id != pool[j].id
    ensures forall k :: 0 <= k < |comps| && (comps[k].id == pool[i].id || comps[k].id == pool[j].id) ==> comps[k].allianceId.None?
  {
    FilterKeepsUnique(comps, IsUnaligned, (c: Competitor) => c.id);
    assert pool[i] in comps && pool[j] in comps;
    forall k | 0 <= k < |comps| && (comps[k].id == pool[i].id || comps[k].id == pool[j].id)
      ensures comps[k].allianceId.None?
    {
      var x := if comps[k].id == pool[i].id then pool[i] else pool[j];
      assert x in comps && x.allianceId.None?;
      var k' :| 0 <= k' < |comps| && comps[k'] == x;
      assert k' == k;
    }
  }

  // ---------------------------------------------------------------------
  // The whole turn

  /** The draws and generated ids of one competitor's turn. */
  datatype TurnChoice = TurnChoice(purchaseRoll: bool, purchasePick: nat, newAircraftId: AircraftId,
                                   expansion: ExpansionChoice)

  function CompetitorTurn(c: Competitor, p: Player, models: seq<AircraftModel>, airports: seq<Airport>,
                          dist: (Airport, Airport) -> real, days: real, today: int, ch: TurnChoice): Competitor
  {
    var afterFinancials := Financials(c, models, days, AiFuelPrice(p.fuelPrice));
    var afterPurchase := AiPurchase(afterFinancials, models, ch.purchaseRoll, ch.purchasePick, ch.newAircraftId, today);
    Expand(afterPurchase, p.routes, p.allianceId, airports, models, dist, ch.expansion)
  }

  /** Every competitor takes its turn, then the alliance step runs on the result. */
  function AiTurnResult(comps: seq<Competitor>, p: Player, models: seq<AircraftModel>, airports: seq<Airport>,
                        dist: (Airport, Airport) -> real, days: real, today: int,
                        choices: seq<TurnChoice>, allianceChoice: AllianceChoice): (seq<Competitor>, Option<Alliance>)
    requires |choices| == |comps|
  {
    FormAiAlliance(seq(|comps|, k requires 0 <= k < |comps| =>
                         CompetitorTurn(comps[k], p, models, airports, dist, days, today, choices[k])),
                   allianceChoice)
  }

  /** One competitor's pass of the map: financials, purchase, expansion. */
  method TakeTurn(c: Competitor, p: Player, models: seq<AircraftModel>, airports: seq<Airport>,
                  dist: (Airport, Airport) -> real, days: real, today: int, ch: TurnChoice)
    returns (r: Competitor)
    ensures r == CompetitorTurn(c, p, models, airports, dist, days, today, ch)
  {
    var afterFinancials := SimulateFinancials(c, models, days, AiFuelPrice(p.fuelPrice));
    var afterPurchase := AiPurchase(afterFinancials, models, ch.purchaseRoll, ch.purchasePick, ch.newAircraftId, today);
    r := Expand(afterPurchase, p.routes, p.allianceId, airports, models, dist, ch.expansion);
  }

  /** Every competitor's turn, in order, followed by the alliance formation. */
  method RunAiTurn(comps: seq<Competitor>, p: Player, models: seq<AircraftModel>, airports: seq<Airport>,
                   dist: (Airport, Airport) -> real, days: real, today: int,
                   choices: seq<TurnChoice>, allianceChoice: AllianceChoice)
    returns (next: seq<Competitor>, alliance: Option<Alliance>)
    requires |choices| == |comps|
    ensures (next, alliance) == AiTurnResult(comps, p, models, airports, dist, days, today, choices, allianceChoice)
    ensures |next| == |comps|
  {
    var turned: seq<Competitor> := [];
    var i := 0;
    while i < |comps|
      invariant 0 <= i <= |comps|
      invariant |turned| == i
      invariant forall k :: 0 <= k < i ==>
                  turned[k] == CompetitorTurn(comps[k], p, models, airports, dist, days, today, choices[k])
    {
      var c := TakeTurn(comps[i], p, models, airports, dist, days, today, choices[i]);
      turned := turned + [c];
      i := i + 1;
    }
    assert turned == seq(|comps|, k requires 0 <= k < |comps| =>
                           CompetitorTurn(comps[k], p, models, airports, dist, days, today, choices[k]));
    next, alliance := FormAiAlliance(turned, allianceChoice).0, FormAiAlliance(turned, allianceChoice).1;
  }
}
