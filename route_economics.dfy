/** The per-route formulas shared by the monthly settlement (App.tsx), the
  * route estimators (RouteManagement.tsx, RouteDetailModal.tsx), the route
  * card badges (CompactRouteCard.tsx) and the AI turn: fares, market share,
  * the demand chain, the passenger cap, airport fees and base demand. */
module RouteEconomics {
  import opened Common
  import opened Model

  const FarePerKm: real := 0.30
  const BaseAirportFeePerFlight: real := 500.0
  const HubDemandMultiplier: real := 1.2
  const HubFeeDiscount: real := 0.5
  const AiCompetitivenessScore: real := 1.0
  const AllianceDemandBonus: real := 1.05

  function StandardFare(distance: real): real { distance * FarePerKm }

  // ---------------------------------------------------------------------
  // Competition

  /** A competitor is a rival unless it carries the player's alliance id. */
  predicate Rival(c: Competitor, playerAlliance: Option<string>) {
    c.allianceId.None? || c.allianceId != playerAlliance
  }

  /** The competitors outside the player's alliance that fly the route's
    * airport pair in either direction, in competitor order. */
  function CompetitorsOnRoute(comps: seq<Competitor>, playerAlliance: Option<string>, route: Route): (r: seq<Competitor>)
    ensures forall c :: c in r ==>
              c in comps && Rival(c, playerAlliance) && FliesPair(c.routes, route.origin, route.destination)
    ensures forall c :: c in comps && Rival(c, playerAlliance) && FliesPair(c.routes, route.origin, route.destination) ==>
              c in r
  {
    Filter(Filter(comps, (c: Competitor) => Rival(c, playerAlliance)),
           (c: Competitor) => FliesPair(c.routes, route.origin, route.destination))
  }

  /** A competitor in the player's own alliance never counts as a rival. */
  lemma AllyNeverCompetes(comps: seq<Competitor>, playerAlliance: Option<string>, route: Route, c: Competitor)
    requires playerAlliance.Some? && c.allianceId == playerAlliance
    ensures c !in CompetitorsOnRoute(comps, playerAlliance, route)
  {
  }

  lemma {:induction false} FilterCongruent<T>(s: seq<T>, p: T -> bool, q: T -> bool)
    requires forall x :: x in s ==> p(x) == q(x)
    ensures Filter(s, p) == Filter(s, q)
  {
    if |s| > 0 {
      FilterCongruent(s[1..], p, q);
    }
  }

  /** Flying A-B and flying B-A are the same competition. */
  lemma CompetitorsOnRouteSymmetric(comps: seq<Competitor>, playerAlliance: Option<string>, route: Route)
    ensures CompetitorsOnRoute(comps, playerAlliance, route)
         == CompetitorsOnRoute(comps, playerAlliance, route.(origin := route.destination, destination := route.origin))
  {
    var rivals := Filter(comps, (c: Competitor) => Rival(c, playerAlliance));
    var back := route.(origin := route.destination, destination := route.origin);
    forall c: Competitor | c in rivals
      ensures FliesPair(c.routes, route.origin, route.destination) == FliesPair(c.routes, back.origin, back.destination)
    {
      if FliesPair(c.routes, route.origin, route.destination) {
        var i :| 0 <= i < |c.routes| && ServesPair(c.routes[i], route.origin, route.destination);
        assert ServesPair(c.routes[i], back.origin, back.destination);
      }
      if FliesPair(c.routes, back.origin, back.destination) {
        var i :| 0 <= i < |c.routes| && ServesPair(c.routes[i], back.origin, back.destination);
        assert ServesPair(c.routes[i], route.origin, route.destination);
      }
    }
    FilterCongruent(rivals, (c: Competitor) => FliesPair(c.routes, route.origin, route.destination),
                            (c: Competitor) => FliesPair(c.routes, back.origin, back.destination));
  }

  // ---------------------------------------------------------------------
  // Market share

  /** The standard fare over the ticket price, at least 0.1; 1 when the standard fare is not positive. */
  function PriceFactor(standardFare: real, ticketPrice: real): (r: real)
    requires standardFare > 0.0 ==> ticketPrice != 0.0
    ensures r >= 0.1
  {
    if standardFare > 0.0 then Max(0.1, standardFare / ticketPrice) else 1.0
  }

  /** 80% of the score at brand awareness 0, 100% at 50, 120% at 100. */
  function BrandFactor(brandAwareness: real): real {
    0.8 + (brandAwareness / 100.0) * 0.4
  }

  function PlayerScore(route: Route, satisfaction: real, brandAwareness: real): real
    requires route.distance > 0.0 ==> route.ticketPrice != 0.0
  {
    PriceFactor(StandardFare(route.distance), route.ticketPrice) * (satisfaction / 50.0) * BrandFactor(brandAwareness)
  }

  /** With a non-negative brand factor the score has the sign of satisfaction. */
  lemma PlayerScoreSign(route: Route, satisfaction: real, brandAwareness: real)
    requires route.distance > 0.0 ==> route.ticketPrice != 0.0
    requires satisfaction >= 0.0 && brandAwareness >= 0.0
    ensures PlayerScore(route, satisfaction, brandAwareness) >= 0.0
    ensures PlayerScore(route, satisfaction, brandAwareness) > 0.0 <==> satisfaction > 0.0
  {
    var pf := PriceFactor(StandardFare(route.distance), route.ticketPrice);
    var bf := BrandFactor(brandAwareness);
    assert pf > 0.0 && bf > 0.0;
    if satisfaction > 0.0 {
      assert pf * (satisfaction / 50.0) > 0.0;
    }
  }

  /** The player's score over the total of its score and one point per rival, 0 when the total is not positive. */
  function MarketShare(playerScore: real, rivals: nat): (r: real)
    ensures playerScore >= 0.0 ==> 0.0 <= r <= 1.0
    ensures playerScore > 0.0 && rivals == 0 ==> r == 1.0
    ensures playerScore >= 0.0 && rivals > 0 ==> r < 1.0
    ensures playerScore == 0.0 ==> r == 0.0
  {
    var total := playerScore + rivals as real * AiCompetitivenessScore;
    if total > 0.0 then playerScore / total else 0.0
  }

  /** Every extra rival lowers (or keeps) the share. */
  lemma MarketShareFallsWithRivals(playerScore: real, rivals: nat)
    requires playerScore >= 0.0
    ensures MarketShare(playerScore, rivals + 1) <= MarketShare(playerScore, rivals)
  {
    if playerScore > 0.0 {
      var t0 := playerScore + rivals as real;
      var t1 := t0 + 1.0;
      DivAntitone(playerScore, t0, t1);
    }
  }

  // ---------------------------------------------------------------------
  // Demand and passengers

  function SatisfactionMultiplier(satisfaction: real): real {
    0.5 + satisfaction / 100.0
  }

  /** The alliance bonus: 5% more demand when an ally serves an endpoint. */
  function AllianceStep(demand: real, allianceBonus: bool): (d: real)
    ensures demand >= 0.0 ==> d >= 0.0
  {
    if allianceBonus then demand * AllianceDemandBonus else demand
  }

  /** The hub bonus: 20% more demand on a hub route, rounded. */
  function HubStep(demand: real, hub: bool): (d: real)
    ensures demand >= 0.0 ==> d >= 0.0
    ensures hub ==> d == d.Floor as real
  {
    if hub then
      RoundNonNegativeIf(demand * HubDemandMultiplier);
      Round(demand * HubDemandMultiplier) as real
    else demand
  }

  /** The airport-event factor: the larger of the two endpoints' multipliers. */
  function EventFactorStep(demand: real, eventFactor: real): real {
    demand * eventFactor
  }

  /** The region factor: the larger of the two endpoints' regional multipliers. */
  function RegionFactorStep(demand: real, regionFactor: real): real {
    demand * regionFactor
  }

  /** The demand chain: research, alliance bonus, airport-event factor, region
    * factor, then the hub bonus, which rounds. */
  function RouteDemand(baseDemand: real, researchBase: real, allianceBonus: bool,
                       eventFactor: real, regionFactor: real, hub: bool): (d: real)
    ensures baseDemand >= 0.0 && researchBase >= 0.0 && eventFactor >= 0.0 && regionFactor >= 0.0 ==> d >= 0.0
    ensures hub ==> d == d.Floor as real
  {
    ChainNonNegative(baseDemand, researchBase, allianceBonus, eventFactor, regionFactor);
    HubStep(RegionFactorStep(EventFactorStep(AllianceStep(baseDemand * researchBase, allianceBonus), eventFactor), regionFactor), hub)
  }

  lemma ChainNonNegative(baseDemand: real, researchBase: real, allianceBonus: bool,
                         eventFactor: real, regionFactor: real)
    ensures baseDemand >= 0.0 && researchBase >= 0.0 && eventFactor >= 0.0 && regionFactor >= 0.0 ==>
              RegionFactorStep(EventFactorStep(AllianceStep(baseDemand * researchBase, allianceBonus), eventFactor), regionFactor) >= 0.0
  {
    if baseDemand >= 0.0 && researchBase >= 0.0 && eventFactor >= 0.0 && regionFactor >= 0.0 {
      MulNonNegative(baseDemand, researchBase);
      var a := AllianceStep(baseDemand * researchBase, allianceBonus);
      MulNonNegative(a, eventFactor);
      MulNonNegative(EventFactorStep(a, eventFactor), regionFactor);
    }
  }

  /** Makes RouteDemand's non-negativity visible to the solver. */
  lemma RoundNonNegativeIf(x: real)
    ensures x >= 0.0 ==> Round(x) >= 0
  {
    if x >= 0.0 { RoundNonNegative(x); }
  }

  /** With every modifier neutral the chain returns the route's own base demand,
    * and the hub bonus then adds 20%, rounded to a whole passenger count. */
  lemma RouteDemandNeutral(baseDemand: real)
    ensures RouteDemand(baseDemand, 1.0, false, 1.0, 1.0, false) == baseDemand
    ensures baseDemand * 1.2 - 0.5 < RouteDemand(baseDemand, 1.0, false, 1.0, 1.0, true) <= baseDemand * 1.2 + 0.5
  {
  }

  /** The player's rounded share of the demand, capped by the seats. */
  function DailyPassengers(seats: int, demand: real, share: real, satMultiplier: real): (p: int)
    ensures p <= seats
    ensures seats >= 0 && demand >= 0.0 && share >= 0.0 && satMultiplier >= 0.0 ==> p >= 0
    ensures p < seats ==> p == Round(demand * share * satMultiplier)
  {
    var wanted := Round(demand * share * satMultiplier);
    ProductRoundsNonNegative(demand, share, satMultiplier);
    if seats <= wanted then seats else wanted
  }

  lemma ProductRoundsNonNegative(x: real, y: real, z: real)
    ensures x >= 0.0 && y >= 0.0 && z >= 0.0 ==> Round(x * y * z) >= 0
  {
    if x >= 0.0 && y >= 0.0 && z >= 0.0 {
      assert x * y >= 0.0;
      RoundNonNegative(x * y * z);
    }
  }

  // ---------------------------------------------------------------------
  // Hub, closures and fees

  predicate IsHubRoute(route: Route, hub: Option<string>) {
    hub.Some? && (route.origin == hub.value || route.destination == hub.value)
  }

  predicate IsRouteClosed(route: Route, closed: set<string>) {
    route.origin in closed || route.destination in closed
  }

  /** Two airport fees a day, less the hub discount for each hub endpoint. */
  function DailyAirportFee(route: Route, hub: Option<string>): real {
    var discount :=
      if hub.Some? then
        (if route.origin == hub.value then BaseAirportFeePerFlight * HubFeeDiscount else 0.0) +
        (if route.destination == hub.value then BaseAirportFeePerFlight * HubFeeDiscount else 0.0)
      else 0.0;
    BaseAirportFeePerFlight * 2.0 - discount
  }

  /** How many endpoints of the route are the hub (0, 1 or 2). */
  function HubEndpoints(route: Route, hub: Option<string>): nat {
    if hub.None? then 0
    else (if route.origin == hub.value then 1 else 0) + (if route.destination == hub.value then 1 else 0)
  }

  /** The daily fee is 1000 less 250 per hub endpoint: full price off-hub, 750
    * for a hub route and 500 for a route whose both ends are the hub. */
  lemma DailyAirportFeeByHub(route: Route, hub: Option<string>)
    ensures DailyAirportFee(route, hub) == 1000.0 - 250.0 * HubEndpoints(route, hub) as real
    ensures 500.0 <= DailyAirportFee(route, hub) <= 1000.0
    ensures DailyAirportFee(route, hub) < 1000.0 <==> IsHubRoute(route, hub)
  {
  }

  // ---------------------------------------------------------------------
  // Daily amounts over a month

  /** A daily amount over a number of days. */
  function OverDays(daily: real, days: int): real {
    daily * days as real
  }

  /** A day's ticket income: the passengers times the fare. */
  function DailyFare(passengers: int, ticketPrice: real): real {
    passengers as real * ticketPrice
  }

  /** A day's fuel for the out-and-back flight: twice the distance, times the
    * model's consumption and the fuel price. */
  function DailyFuel(distance: real, fuelEfficiency: real, fuelPrice: real): real {
    distance * 2.0 * fuelEfficiency * fuelPrice
  }

  lemma OverDaysMonotone(a: real, b: real, days: int)
    requires a <= b && days >= 0
    ensures OverDays(a, days) <= OverDays(b, days)
  {
  }

  lemma DailyFareMonotone(passengers: int, seats: int, ticketPrice: real)
    requires passengers <= seats && ticketPrice >= 0.0
    ensures DailyFare(passengers, ticketPrice) <= DailyFare(seats, ticketPrice)
  {
  }

  /** Fewer passengers than seats never earn more than a full aircraft every day. */
  lemma FullFareBound(passengers: int, seats: int, ticketPrice: real, days: int)
    requires passengers <= seats && ticketPrice >= 0.0 && days >= 0
    ensures OverDays(DailyFare(passengers, ticketPrice), days) <= OverDays(DailyFare(seats, ticketPrice), days)
  {
    DailyFareMonotone(passengers, seats, ticketPrice);
    OverDaysMonotone(DailyFare(passengers, ticketPrice), DailyFare(seats, ticketPrice), days);
  }

  // ---------------------------------------------------------------------
  // Base demand of a new route (player and AI)

  /** A new route's demand: larger for bigger airports and shorter distances, rounded and at least 20. */
  function BaseDemand(originSize: int, destinationSize: int, distance: real): (r: real)
    ensures r >= 20.0
    ensures r == r.Floor as real
  {
    Max(20.0, Round((originSize * destinationSize) as real * 20.0 + (5000.0 - distance) / 10.0) as real)
  }

  /** Longer routes never get more base demand; bigger airports never get less. */
  lemma BaseDemandMonotone(s1: int, s2: int, t1: int, t2: int, d1: real, d2: real)
    requires d1 <= d2
    requires 0 <= s1 <= t1 && 0 <= s2 <= t2
    ensures BaseDemand(s1, s2, d2) <= BaseDemand(t1, t2, d1)
  {
    assert s1 * s2 <= t1 * s2 <= t1 * t2;
    RoundMonotone((s1 * s2) as real * 20.0 + (5000.0 - d2) / 10.0,
                  (t1 * t2) as real * 20.0 + (5000.0 - d1) / 10.0);
  }

  // ---------------------------------------------------------------------
  // Alliance demand bonus: three versions of the same question

  function Partners(a: Alliance): seq<string> {
    Filter(a.members, (m: string) => m != PlayerMember)
  }

  predicate OperatesAt(c: Competitor, airport: string) {
    exists i :: 0 <= i < |c.routes| && (c.routes[i].origin == airport || c.routes[i].destination == airport)
  }

  /** Settlement (App.tsx): some listed partner flies from or to either endpoint. */
  predicate SettlementAllianceBonus(playerAlliance: Option<string>, alliances: seq<Alliance>,
                                    comps: seq<Competitor>, route: Route) {
    playerAlliance.Some? &&
    var a := FindAlliance(alliances, playerAlliance.value);
    a.Some? &&
    exists c :: c in comps && c.id in Partners(a.value) &&
                (OperatesAt(c, route.origin) || OperatesAt(c, route.destination))
  }

  /** Estimators: the partner must also carry the alliance's id itself. */
  predicate EstimatorAllianceBonus(playerAlliance: Option<string>, alliances: seq<Alliance>,
                                   comps: seq<Competitor>, route: Route) {
    playerAlliance.Some? &&
    var a := FindAlliance(alliances, playerAlliance.value);
    a.Some? && |Partners(a.value)| > 0 &&
    exists c :: c in comps && c.id in Partners(a.value) && c.allianceId == Some(a.value.id) &&
                (OperatesAt(c, route.origin) || OperatesAt(c, route.destination))
  }

  /** The compact card's badge: the alliance exists and has a non-player member. */
  predicate CardAllianceBadge(playerAlliance: Option<string>, alliances: seq<Alliance>) {
    playerAlliance.Some? &&
    var a := FindAlliance(alliances, playerAlliance.value);
    a.Some? && |Partners(a.value)| > 0
  }

  /** The estimator's test is stricter than the settlement's, whose test in turn
    * implies the card's badge: an estimated bonus is always paid, and a paid
    * bonus is always badged. */
  lemma AllianceBonusChain(playerAlliance: Option<string>, alliances: seq<Alliance>,
                           comps: seq<Competitor>, route: Route)
    ensures EstimatorAllianceBonus(playerAlliance, alliances, comps, route) ==>
              SettlementAllianceBonus(playerAlliance, alliances, comps, route)
    ensures SettlementAllianceBonus(playerAlliance, alliances, comps, route) ==>
              CardAllianceBadge(playerAlliance, alliances)
  {
    if SettlementAllianceBonus(playerAlliance, alliances, comps, route) {
      var a := FindAlliance(alliances, playerAlliance.value).value;
      var c :| c in comps && c.id in Partners(a) &&
               (OperatesAt(c, route.origin) || OperatesAt(c, route.destination));
      assert |Partners(a)| > 0;
    }
  }

  /** Without an alliance, or with an alliance id the list does not know, or with
    * no member other than the player, no version grants anything. */
  lemma NoAllianceNoBonus(playerAlliance: Option<string>, alliances: seq<Alliance>,
                          comps: seq<Competitor>, route: Route)
    requires playerAlliance.None?
          || FindAlliance(alliances, playerAlliance.value).None?
          || |Partners(FindAlliance(alliances, playerAlliance.value).value)| == 0
    ensures !EstimatorAllianceBonus(playerAlliance, alliances, comps, route)
    ensures !SettlementAllianceBonus(playerAlliance, alliances, comps, route)
    ensures !CardAllianceBadge(playerAlliance, alliances)
  {
    AllianceBonusChain(playerAlliance, alliances, comps, route);
  }
}
