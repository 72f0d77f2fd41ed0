/** The monthly estimate shown for each player route (the route card of
  * RouteManagement.tsx and the route detail modal, which run the same code),
  * the price-input handler both of them carry, the modal's render guard, and
  * the pages of the route list.
  *
  * The estimate is the settlement's per-route formula with four differences:
  * a month is always 30 days, airport events are not applied, the market
  * share is forced to 1 when no rival flies the pair, and every output is
  * zeroed for a route with a closed endpoint. */
module RouteEstimator {
  import opened Common
  import opened Model
  import opened RouteEconomics
  import opened Modifiers
  import opened Settlement
  import opened Commands
  import opened Session
  import Paging

  const EstimateDays: int := 30

  /** The five figures the card shows. Money is rounded to whole units. */
  datatype Estimate = Estimate(income: int, costs: int, profit: int, share: real, loadFactor: int)

  /** The values the `let` locals start with. */
  const Unassigned := Estimate(0, 0, 0, 1.0, 0)

  /** The values a closed route is forced to. */
  const Closed := Estimate(0, 0, 0, 0.0, 0)

  /** Every catalog model has seats (the load factor divides by them). */
  predicate ModelsHaveSeats(models: seq<AircraftModel>) {
    forall m :: m in models ==> m.seats > 0
  }

  /** The model of the aircraft the route names, looked up in the player's fleet. */
  function AssignedModel(route: Route, p: Player, models: seq<AircraftModel>): (r: Option<AircraftModel>)
    ensures r.Some? ==> r.value in models && route.aircraftId.Some?
  {
    if route.aircraftId.None? then None
    else
      var aircraft := FindAircraft(p.fleet, route.aircraftId.value);
      if aircraft.None? then None else ModelOf(models, aircraft.value)
  }

  /** The estimator's share: the settlement's share, except that no rival means 1. */
  function EstimatedShare(route: Route, p: Player, rivals: nat): real
    requires route.distance > 0.0 ==> route.ticketPrice != 0.0
  {
    if rivals == 0 then 1.0 else MarketShare(PlayerScore(route, p.satisfaction, p.brandAwareness), rivals)
  }

  /** The estimator's demand chain: research, alliance bonus, region factor,
    * then the rounded hub bonus. There is no airport-event step. */
  function DemandWithoutEvents(baseDemand: real, researchBase: real, allianceBonus: bool,
                               regionFactor: real, hub: bool): real
  {
    HubStep(RegionFactorStep(AllianceStep(baseDemand * researchBase, allianceBonus), regionFactor), hub)
  }

  /** Leaving out the event step is the settlement's chain with a neutral
    * airport-event factor of 1. */
  lemma DemandWithoutEventsIsNeutralEvent(baseDemand: real, researchBase: real, allianceBonus: bool,
                                          regionFactor: real, hub: bool)
    ensures DemandWithoutEvents(baseDemand, researchBase, allianceBonus, regionFactor, hub)
         == RouteDemand(baseDemand, researchBase, allianceBonus, 1.0, regionFactor, hub)
  {
    assert EventFactorStep(AllianceStep(baseDemand * researchBase, allianceBonus), 1.0)
        == AllianceStep(baseDemand * researchBase, allianceBonus);
  }

  /** The larger of the two endpoint regions' campaign multipliers. */
  function RegionFactor(p: Player, origin: Airport, destination: Airport): real {
    var regional := RegionalDemandModifiers(p.activeCampaigns);
    Max(Get(regional, origin.region), Get(regional, destination.region))
  }

  function EstimatedDemand(route: Route, origin: Airport, destination: Airport, p: Player,
                           comps: seq<Competitor>, alliances: seq<Alliance>): real
  {
    DemandWithoutEvents(route.baseDemand, p.researchModifiers.baseDemand,
                        EstimatorAllianceBonus(p.allianceId, alliances, comps, route),
                        RegionFactor(p, origin, destination), IsHubRoute(route, p.hubAirportId))
  }

  function EstimatedPassengers(route: Route, m: AircraftModel, origin: Airport, destination: Airport,
                               p: Player, comps: seq<Competitor>, alliances: seq<Alliance>): (n: int)
    requires route.distance > 0.0 ==> route.ticketPrice != 0.0
    ensures n <= m.seats
  {
    DailyPassengers(m.seats, EstimatedDemand(route, origin, destination, p, comps, alliances),
                    EstimatedShare(route, p, |CompetitorsOnRoute(comps, p.allianceId, route)|),
                    SatisfactionMultiplier(p.satisfaction))
  }

  /** The figures for `passengers` a day on an aircraft of `seats` seats over
    * 30 days: income and costs are rounded once each. */
  function Figures(passengers: int, seats: int, ticketPrice: real, fuelCost: real,
                   dailyFee: real, share: real): (e: Estimate)
    requires seats > 0
    ensures passengers <= seats ==> e.loadFactor <= 100
    ensures passengers == seats ==> e.loadFactor == 100
  {
    LoadFactorBound(passengers, seats);
    var income := Round(OverDays(DailyFare(passengers, ticketPrice), EstimateDays));
    var costs := Round(fuelCost + OverDays(dailyFee, EstimateDays));
    Estimate(income, costs, income - costs, share, Round(passengers as real / seats as real * 100.0))
  }

  /** A full aircraft is a load factor of 100; fewer passengers never show more. */
  lemma LoadFactorBound(passengers: int, seats: int)
    requires seats > 0
    ensures passengers <= seats ==> Round(passengers as real / seats as real * 100.0) <= 100
    ensures passengers == seats ==> Round(passengers as real / seats as real * 100.0) == 100
  {
    var s := seats as real;
    if passengers <= seats {
      DivBounds(passengers as real, s, passengers as real / s, 1.0);
      RoundBelowIntegral(passengers as real / s * 100.0, 100);
    }
  }

  /** 30 days of the out-and-back fuel bill. */
  function FuelCost(route: Route, m: AircraftModel, fuelPrice: real): real {
    OverDays(DailyFuel(route.distance, m.fuelEfficiency, fuelPrice), EstimateDays)
  }

  /** The estimate of a route flown by an aircraft of model `m`. */
  function FlownEstimate(route: Route, m: AircraftModel, origin: Airport, destination: Airport,
                         p: Player, comps: seq<Competitor>, alliances: seq<Alliance>): (e: Estimate)
    requires route.distance > 0.0 ==> route.ticketPrice != 0.0
    requires m.seats > 0
    ensures e.loadFactor <= 100
  {
    Figures(EstimatedPassengers(route, m, origin, destination, p, comps, alliances), m.seats,
            route.ticketPrice, FuelCost(route, m, p.fuelPrice), DailyAirportFee(route, p.hubAirportId),
            EstimatedShare(route, p, |CompetitorsOnRoute(comps, p.allianceId, route)|))
  }

  /** The card's figures: computed only when the aircraft and its model are
    * found and the fuel price is non-zero, then zeroed for a closed route. */
  function RouteEstimate(route: Route, origin: Airport, destination: Airport, p: Player,
                         models: seq<AircraftModel>, comps: seq<Competitor>,
                         alliances: seq<Alliance>, closed: set<string>): (e: Estimate)
    requires ModelsHaveSeats(models)
    requires route.distance > 0.0 ==> route.ticketPrice != 0.0
    ensures e.profit == e.income - e.costs
    ensures e.loadFactor <= 100
  {
    var m := AssignedModel(route, p, models);
    if IsRouteClosed(route, closed) then Closed
    else if m.Some? && p.fuelPrice != 0.0 then FlownEstimate(route, m.value, origin, destination, p, comps, alliances)
    else Unassigned
  }

  /** The card's sequence of `let` updates: initial values, the figures when
    * an aircraft flies the route, then the zeroing of a closed route. */
  method EstimateRoute(route: Route, origin: Airport, destination: Airport, p: Player,
                       models: seq<AircraftModel>, comps: seq<Competitor>,
                       alliances: seq<Alliance>, closed: set<string>) returns (e: Estimate)
    requires ModelsHaveSeats(models)
    requires route.distance > 0.0 ==> route.ticketPrice != 0.0
    ensures e == RouteEstimate(route, origin, destination, p, models, comps, alliances, closed)
  {
    var income := 0;
    var costs := 0;
    var profit := 0;
    var share := 1.0;
    var loadFactor := 0;
    var model := AssignedModel(route, p, models);
    if model.Some? && p.fuelPrice != 0.0 {
      var flown := EstimateFlown(route, model.value, origin, destination, p, comps, alliances);
      income, costs, profit, share, loadFactor := flown.income, flown.costs, flown.profit, flown.share, flown.loadFactor;
    }
    if IsRouteClosed(route, closed) {
      income := 0;
      costs := 0;
      profit := 0;
      share := 0.0;
      loadFactor := 0;
    }
    e := Estimate(income, costs, profit, share, loadFactor);
  }

  /** The card's estimate for a route with an aircraft of a known model and a set fuel price. */
  method EstimateFlown(route: Route, m: AircraftModel, origin: Airport, destination: Airport,
                       p: Player, comps: seq<Competitor>, alliances: seq<Alliance>) returns (e: Estimate)
    requires route.distance > 0.0 ==> route.ticketPrice != 0.0
    requires m.seats > 0
    ensures e == FlownEstimate(route, m, origin, destination, p, comps, alliances)
  {
    var share := EstimateShare(route, p, |CompetitorsOnRoute(comps, p.allianceId, route)|);
    var bonus := EstimatorAllianceBonus(p.allianceId, alliances, comps, route);
    var demand := EstimateDemand(route.baseDemand, p.researchModifiers.baseDemand, bonus, p.activeCampaigns,
                                 origin.region, destination.region, IsHubRoute(route, p.hubAirportId));
    assert demand == EstimatedDemand(route, origin, destination, p, comps, alliances);
    var passengers := EstimatePassengers(m.seats, demand, share, SatisfactionMultiplier(p.satisfaction));
    assert passengers == EstimatedPassengers(route, m, origin, destination, p, comps, alliances);
    var dailyAirportFee := EstimateAirportFee(route, p.hubAirportId);
    e := EstimateFigures(passengers, m.seats, route.ticketPrice, FuelCost(route, m, p.fuelPrice), dailyAirportFee, share);
  }

  /** The passenger steps: the modified demand, capped by the seats. */
  method EstimatePassengers(seats: int, demand: real, share: real, satisfactionMultiplier: real)
    returns (passengers: int)
    ensures passengers == DailyPassengers(seats, demand, share, satisfactionMultiplier)
  {
    var modifiedDemand := Round(demand * share * satisfactionMultiplier);
    passengers := if seats <= modifiedDemand then seats else modifiedDemand;
  }

  /** The figure steps: load factor, income, costs and profit. */
  method EstimateFigures(passengers: int, seats: int, ticketPrice: real, fuelCost: real,
                         dailyAirportFee: real, share: real) returns (e: Estimate)
    requires seats > 0
    ensures e == Figures(passengers, seats, ticketPrice, fuelCost, dailyAirportFee, share)
  {
    var loadFactor := Round(passengers as real / seats as real * 100.0);
    var income := Round(OverDays(DailyFare(passengers, ticketPrice), EstimateDays));
    var costs := Round(fuelCost + OverDays(dailyAirportFee, EstimateDays));
    var profit := income - costs;
    e := Estimate(income, costs, profit, share, loadFactor);
  }

  /** The share steps: the score ratio, then 1 when no rival flies the pair. */
  method EstimateShare(route: Route, p: Player, rivals: nat) returns (share: real)
    requires route.distance > 0.0 ==> route.ticketPrice != 0.0
    ensures share == EstimatedShare(route, p, rivals)
  {
    var playerScore := PlayerScore(route, p.satisfaction, p.brandAwareness);
    var totalScore := playerScore + rivals as real * AiCompetitivenessScore;
    share := if totalScore > 0.0 then playerScore / totalScore else 0.0;
    if rivals == 0 {
      share := 1.0;
    }
  }

  /** The demand steps: research, alliance bonus, the region factor read from
    * the map the campaign loop fills, then the hub bonus. */
  method EstimateDemand(baseDemand: real, researchBase: real, bonus: bool, campaigns: seq<ActiveCampaign>,
                        originRegion: string, destinationRegion: string, hub: bool)
    returns (demand: real)
    ensures demand == DemandWithoutEvents(
              baseDemand, researchBase, bonus,
              Max(Get(RegionalDemandModifiers(campaigns), originRegion),
                  Get(RegionalDemandModifiers(campaigns), destinationRegion)),
              hub)
  {
    demand := baseDemand * researchBase;
    ghost var researched := demand;
    if bonus {
      demand := demand * AllianceDemandBonus;
    }
    assert demand == AllianceStep(researched, bonus);
    var regional := BuildRegionalDemandModifiers(campaigns);
    var regionFactor := Max(Get(regional, originRegion), Get(regional, destinationRegion));
    ghost var beforeRegion := demand;
    demand := demand * regionFactor;
    assert demand == RegionFactorStep(beforeRegion, regionFactor);
    if hub {
      HubStepRounds(demand);
      demand := Round(demand * HubDemandMultiplier) as real;
    }
  }

  lemma HubStepRounds(demand: real)
    ensures HubStep(demand, true) == Round(demand * HubDemandMultiplier) as real
  {
  }

  /** The fee steps: two full fees, less half a fee per endpoint that is the hub. */
  method EstimateAirportFee(route: Route, hub: Option<string>) returns (fee: real)
    ensures fee == DailyAirportFee(route, hub)
  {
    fee := BaseAirportFeePerFlight * 2.0;
    if hub.Some? {
      var discount := 0.0;
      if route.origin == hub.value {
        discount := discount + BaseAirportFeePerFlight * HubFeeDiscount;
      }
      if route.destination == hub.value {
        discount := discount + BaseAirportFeePerFlight * HubFeeDiscount;
      }
      fee := fee - discount;
    }
  }

  // ---------------------------------------------------------------------
  // Properties of the estimate

  /** A closed route shows nothing, whatever is assigned to it. */
  lemma ClosedRouteZeroed(route: Route, origin: Airport, destination: Airport, p: Player,
                          models: seq<AircraftModel>, comps: seq<Competitor>,
                          alliances: seq<Alliance>, closed: set<string>)
    requires ModelsHaveSeats(models)
    requires route.distance > 0.0 ==> route.ticketPrice != 0.0
    requires route.origin in closed || route.destination in closed
    ensures var e := RouteEstimate(route, origin, destination, p, models, comps, alliances, closed);
            e.income == 0 && e.costs == 0 && e.profit == 0 && e.share == 0.0 && e.loadFactor == 0
  {
  }

  lemma NoRivalsNoCompetitors(comps: seq<Competitor>, playerAlliance: Option<string>, route: Route)
    requires forall c :: c in comps ==> !Rival(c, playerAlliance) || !FliesPair(c.routes, route.origin, route.destination)
    ensures CompetitorsOnRoute(comps, playerAlliance, route) == []
  {
    var rivals := Filter(comps, (c: Competitor) => Rival(c, playerAlliance));
    FilterNoneKept(rivals, (c: Competitor) => FliesPair(c.routes, route.origin, route.destination));
  }

  /** With an aircraft assigned and found, an open route and no rival on the
    * pair, the estimated share is exactly 1, whatever the player's score. */
  lemma NoRivalsFullShare(route: Route, origin: Airport, destination: Airport, p: Player,
                          models: seq<AircraftModel>, comps: seq<Competitor>,
                          alliances: seq<Alliance>, closed: set<string>)
    requires ModelsHaveSeats(models)
    requires route.distance > 0.0 ==> route.ticketPrice != 0.0
    requires AssignedModel(route, p, models).Some? && p.fuelPrice != 0.0 && !IsRouteClosed(route, closed)
    requires forall c :: c in comps ==> !Rival(c, p.allianceId) || !FliesPair(c.routes, route.origin, route.destination)
    ensures RouteEstimate(route, origin, destination, p, models, comps, alliances, closed).share == 1.0
  {
    NoRivalsNoCompetitors(comps, p.allianceId, route);
  }

  /** The estimated costs are 30 days of fuel plus 30 days of the daily fee,
    * which is 1000 less 250 per endpoint that is the hub, rounded once. */
  lemma EstimatedCosts(route: Route, origin: Airport, destination: Airport, p: Player,
                       models: seq<AircraftModel>, comps: seq<Competitor>,
                       alliances: seq<Alliance>, closed: set<string>)
    requires ModelsHaveSeats(models)
    requires route.distance > 0.0 ==> route.ticketPrice != 0.0
    requires AssignedModel(route, p, models).Some? && p.fuelPrice != 0.0 && !IsRouteClosed(route, closed)
    ensures var m := AssignedModel(route, p, models).value;
            RouteEstimate(route, origin, destination, p, models, comps, alliances, closed).costs
            == Round(OverDays(DailyFuel(route.distance, m.fuelEfficiency, p.fuelPrice), 30)
                     + OverDays(1000.0 - 250.0 * HubEndpoints(route, p.hubAirportId) as real, 30))
  {
    DailyAirportFeeByHub(route, p.hubAirportId);
  }

  /** Estimate and settlement agree on a flown, open route when the month has
    * 30 days, no airport event is active, both apply the same alliance bonus
    * and the settlement's share is not 0 for want of rivals and satisfaction:
    * the estimated income and costs are the settled ones, rounded. */
  lemma EstimateMatchesSettlement(ctx: RouteContext, route: Route, m: AircraftModel,
                                  origin: Airport, destination: Airport, p: Player,
                                  comps: seq<Competitor>, alliances: seq<Alliance>)
    requires route.distance > 0.0 ==> route.ticketPrice != 0.0
    requires m.seats > 0
    requires ctx.satisfaction == p.satisfaction && ctx.brandAwareness == p.brandAwareness
    requires ctx.research == p.researchModifiers && ctx.hub == p.hubAirportId
    requires ctx.playerAlliance == p.allianceId && ctx.alliances == alliances && ctx.competitors == comps
    requires ctx.airportDemand == map[] && ctx.regionalDemand == RegionalDemandModifiers(p.activeCampaigns)
    requires FindAirport(ctx.airports, route.origin) == Some(origin)
    requires FindAirport(ctx.airports, route.destination) == Some(destination)
    requires ctx.days == 30 && ctx.fuelPrice == p.fuelPrice
    requires EstimatorAllianceBonus(p.allianceId, alliances, comps, route)
             == SettlementAllianceBonus(p.allianceId, alliances, comps, route)
    requires p.satisfaction > 0.0 && p.brandAwareness >= 0.0
    ensures var e := FlownEstimate(route, m, origin, destination, p, comps, alliances);
            var t := FlownTake(ctx, route, m);
            e.income == Round(t.income) && e.costs == Round(t.fuel + t.fees)
  {
    PassengersAgree(ctx, route, m, origin, destination, p, comps, alliances);
  }

  lemma PassengersAgree(ctx: RouteContext, route: Route, m: AircraftModel,
                        origin: Airport, destination: Airport, p: Player,
                        comps: seq<Competitor>, alliances: seq<Alliance>)
    requires route.distance > 0.0 ==> route.ticketPrice != 0.0
    requires m.seats > 0
    requires ctx.satisfaction == p.satisfaction && ctx.brandAwareness == p.brandAwareness
    requires ctx.research == p.researchModifiers && ctx.hub == p.hubAirportId
    requires ctx.playerAlliance == p.allianceId && ctx.alliances == alliances && ctx.competitors == comps
    requires ctx.airportDemand == map[] && ctx.regionalDemand == RegionalDemandModifiers(p.activeCampaigns)
    requires FindAirport(ctx.airports, route.origin) == Some(origin)
    requires FindAirport(ctx.airports, route.destination) == Some(destination)
    requires ctx.days == 30 && ctx.fuelPrice == p.fuelPrice
    requires EstimatorAllianceBonus(p.allianceId, alliances, comps, route)
             == SettlementAllianceBonus(p.allianceId, alliances, comps, route)
    requires p.satisfaction > 0.0 && p.brandAwareness >= 0.0
    ensures RoutePassengers(ctx, route, m.seats) == EstimatedPassengers(route, m, origin, destination, p, comps, alliances)
  {
    DemandAgrees(ctx, route, origin, destination, p, comps, alliances);
    ShareAgrees(ctx, route, p);
  }

  lemma DemandAgrees(ctx: RouteContext, route: Route, origin: Airport, destination: Airport, p: Player,
                     comps: seq<Competitor>, alliances: seq<Alliance>)
    requires ctx.research == p.researchModifiers && ctx.hub == p.hubAirportId
    requires ctx.playerAlliance == p.allianceId && ctx.alliances == alliances && ctx.competitors == comps
    requires ctx.airportDemand == map[] && ctx.regionalDemand == RegionalDemandModifiers(p.activeCampaigns)
    requires FindAirport(ctx.airports, route.origin) == Some(origin)
    requires FindAirport(ctx.airports, route.destination) == Some(destination)
    requires EstimatorAllianceBonus(p.allianceId, alliances, comps, route)
             == SettlementAllianceBonus(p.allianceId, alliances, comps, route)
    ensures SettlementDemand(ctx, route) == EstimatedDemand(route, origin, destination, p, comps, alliances)
  {
    var bonus := EstimatorAllianceBonus(p.allianceId, alliances, comps, route);
    var regionFactor := RegionFactor(p, origin, destination);
    var hub := IsHubRoute(route, p.hubAirportId);
    assert SettlementDemand(ctx, route)
        == RouteDemand(route.baseDemand, p.researchModifiers.baseDemand, bonus, 1.0, regionFactor, hub);
    DemandWithoutEventsIsNeutralEvent(route.baseDemand, p.researchModifiers.baseDemand, bonus, regionFactor, hub);
  }

  lemma ShareAgrees(ctx: RouteContext, route: Route, p: Player)
    requires route.distance > 0.0 ==> route.ticketPrice != 0.0
    requires ctx.satisfaction == p.satisfaction && ctx.brandAwareness == p.brandAwareness
    requires ctx.playerAlliance == p.allianceId
    requires p.satisfaction > 0.0 && p.brandAwareness >= 0.0
    ensures SettlementShare(ctx, route)
         == EstimatedShare(route, p, |CompetitorsOnRoute(ctx.competitors, p.allianceId, route)|)
  {
    PlayerScoreSign(route, p.satisfaction, p.brandAwareness);
  }

  /** Where the two differ: with no rival and satisfaction 0 the settlement
    * sells nothing while the estimate still shows the full share. */
  lemma ZeroSatisfactionShares(route: Route, p: Player)
    requires route.distance > 0.0 ==> route.ticketPrice != 0.0
    requires p.satisfaction == 0.0
    ensures MarketShare(PlayerScore(route, p.satisfaction, p.brandAwareness), 0) == 0.0
    ensures EstimatedShare(route, p, 0) == 1.0
  {
  }

  /** An estimator partner must carry the alliance's id itself: with no
    * competitor in the player's alliance there is no estimated bonus. */
  lemma PartnerMustBeAllied(p: Player, alliances: seq<Alliance>, comps: seq<Competitor>, route: Route)
    requires forall c :: c in comps ==> c.allianceId != p.allianceId
    ensures !EstimatorAllianceBonus(p.allianceId, alliances, comps, route)
  {
  }

  // ---------------------------------------------------------------------
  // The price input

  /** What pressing the price button does. */
  datatype PriceAction =
    | Forward(routeId: string, price: int)   // the new price is sent to the game
    | ResetInput(text: real)                 // the input goes back to the current price
    | Ignore                                 // the modal without a route

  /** The card's handler: `parsed` is the input read as an integer (None when it is not a number). */
  function CardPriceUpdate(route: Route, parsed: Option<int>): (r: PriceAction)
    ensures r.Forward? <==> parsed.Some? && parsed.value > 0
    ensures r.Forward? ==> r.routeId == route.id && r.price == parsed.value
    ensures !r.Forward? ==> r == ResetInput(route.ticketPrice)
  {
    if parsed.Some? && parsed.value > 0 then Forward(route.id, parsed.value)
    else ResetInput(route.ticketPrice)
  }

  /** The modal's handler, which first returns when no route is shown. */
  function ModalPriceUpdate(route: Option<Route>, parsed: Option<int>): (r: PriceAction)
    ensures route.None? <==> r.Ignore?
    ensures route.Some? ==> r == CardPriceUpdate(route.value, parsed)
  {
    if route.None? then Ignore else CardPriceUpdate(route.value, parsed)
  }

  /** A forwarded price is always one the session accepts without breaking its
    * invariant (every ticket price stays positive). */
  lemma ForwardedPriceKeepsValid(s: SessionState, route: Route, parsed: Option<int>)
    requires ValidState(s)
    requires CardPriceUpdate(route, parsed).Forward?
    ensures var f := CardPriceUpdate(route, parsed);
            ValidState(s.(player := UpdateTicketPrice(s.player, f.routeId, f.price as real)))
  {
    var f := CardPriceUpdate(route, parsed);
    PriceAndHubKeepValid(s, f.routeId, f.price as real, "");
  }

  // ---------------------------------------------------------------------
  // The modal's render guard

  /** The modal renders only when open with a route whose two airports are in the catalog. */
  function ModalShows(isOpen: bool, route: Option<Route>, airports: seq<Airport>): (r: bool)
    ensures r <==> isOpen && route.Some? &&
                   (exists a :: a in airports && a.id == route.value.origin) &&
                   (exists a :: a in airports && a.id == route.value.destination)
  {
    isOpen && route.Some? &&
    FindAirport(airports, route.value.origin).Some? && FindAirport(airports, route.value.destination).Some?
  }

  // ---------------------------------------------------------------------
  // The pages of the route list

  const RoutesPerPage: nat := 2

  function RoutePage(routes: seq<Route>, page: int): (r: seq<Route>)
    requires page >= 1
    ensures |r| <= RoutesPerPage
  {
    Paging.PageItems(routes, page, RoutesPerPage)
  }

  /** After the page clamp the current page is one of the pages offered, and
    * every route is on the page its position gives it. */
  lemma RouteListPaging(routes: seq<Route>, page: int, i: nat)
    requires page >= 1 && i < |routes|
    ensures var current := Paging.ClampPage(page, Paging.TotalPages(|routes|, RoutesPerPage));
            1 <= current <= Paging.TotalPages(|routes|, RoutesPerPage)
    ensures var home := i / RoutesPerPage + 1;
            1 <= home <= Paging.TotalPages(|routes|, RoutesPerPage) && routes[i] in RoutePage(routes, home)
  {
    Paging.ClampPageSettles(page, Paging.TotalPages(|routes|, RoutesPerPage));
    Paging.PagesCoverList(routes, RoutesPerPage, i);
    var home := i / RoutesPerPage + 1;
    assert routes[i] == RoutePage(routes, home)[i % RoutesPerPage];
  }
}
