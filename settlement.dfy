/** The player's side of the monthly settlement (App.tsx "Monthly financial and
  * satisfaction calculations"): on-time performance, satisfaction, per-route
  * income and costs, and the month's totals. Everything is computed from the
  * snapshot of the state taken when the month changed. */
module Settlement {
  import opened Common
  import opened Model
  import opened Modifiers
  import opened RouteEconomics

  const BaseSalaryCost: real := 200000.0
  const SalaryPerAircraft: real := 40000.0
  const SalaryPerRoute: real := 15000.0
  const AllianceSatisfactionBonus: real := 2.0

  /** Ticket prices the fare division can use: the game divides the standard
    * fare by the ticket price whenever the standard fare is positive. */
  predicate PricedRoutes(routes: seq<Route>) {
    forall i :: 0 <= i < |routes| ==> (routes[i].distance > 0.0 ==> routes[i].ticketPrice != 0.0)
  }

  // ---------------------------------------------------------------------
  // On-time performance

  /** The random draw for an aircraft matters only when it is in service and
    * older than 20 years. */
  predicate Degrades(a: AircraftInstance, today: int, roll: bool) {
    a.status == InService && AgeInYears(today, a.purchaseDay) > 20.0 && roll
  }

  /** Total on-time loss: 0.1 for each in-service aircraft over 20 years whose draw hit. */
  function OnTimeLoss(fleet: seq<AircraftInstance>, today: int, rolls: seq<bool>): real
    requires |rolls| == |fleet|
  {
    if |fleet| == 0 then 0.0
    else (if Degrades(fleet[0], today, rolls[0]) then 0.1 else 0.0) + OnTimeLoss(fleet[1..], today, rolls[1..])
  }

  /** The loss is between 0 and 0.1 per aircraft, and it is 0 when no aircraft
    * in service is older than 20 years. */
  lemma {:induction false} OnTimeLossBounds(fleet: seq<AircraftInstance>, today: int, rolls: seq<bool>)
    requires |rolls| == |fleet|
    ensures 0.0 <= OnTimeLoss(fleet, today, rolls) <= 0.1 * |fleet| as real
    ensures (forall i :: 0 <= i < |fleet| && fleet[i].status == InService ==>
               AgeInYears(today, fleet[i].purchaseDay) <= 20.0)
            ==> OnTimeLoss(fleet, today, rolls) == 0.0
  {
    if |fleet| > 0 {
      OnTimeLossBounds(fleet[1..], today, rolls[1..]);
      if forall i :: 0 <= i < |fleet| && fleet[i].status == InService ==> AgeInYears(today, fleet[i].purchaseDay) <= 20.0 {
        assert forall i :: 0 <= i < |fleet[1..]| && fleet[1..][i].status == InService ==>
                 AgeInYears(today, fleet[1..][i].purchaseDay) <= 20.0 by {
          forall i | 0 <= i < |fleet[1..]| ensures fleet[1..][i] == fleet[i + 1] { }
        }
      }
    }
  }

  function NewOnTimePerformance(otp: real, fleet: seq<AircraftInstance>, today: int,
                                rolls: seq<bool>, recovery: bool): real
    requires |rolls| == |fleet|
  {
    Clamp(otp - OnTimeLoss(fleet, today, rolls) + (if recovery then 0.05 else 0.0), 70.0, 99.0)
  }

  /** The forEach over the fleet, the recovery draw and the clamp. */
  method UpdateOnTimePerformance(otp: real, fleet: seq<AircraftInstance>, today: int,
                                 rolls: seq<bool>, recovery: bool) returns (r: real)
    requires |rolls| == |fleet|
    ensures r == NewOnTimePerformance(otp, fleet, today, rolls, recovery)
    ensures 70.0 <= r <= 99.0
  {
    r := otp;
    var i := 0;
    while i < |fleet|
      invariant 0 <= i <= |fleet|
      invariant r - OnTimeLoss(fleet[i..], today, rolls[i..]) == otp - OnTimeLoss(fleet, today, rolls)
    {
      assert fleet[i..][1..] == fleet[i + 1..] && rolls[i..][1..] == rolls[i + 1..];
      if fleet[i].status == InService {
        if AgeInYears(today, fleet[i].purchaseDay) > 20.0 && rolls[i] {
          r := r - 0.1;
        }
      }
      i := i + 1;
    }
    if recovery {
      r := r + 0.05;
    }
    r := Clamp(r, 70.0, 99.0);
  }

  // ---------------------------------------------------------------------
  // Satisfaction

  /** The price term. With a zero standard fare the game divides by zero:
    * a positive price gives +Infinity and a zero price NaN, both of which fail
    * every comparison (-3.0), while a negative price gives -Infinity (1.5). */
  function PriceSatisfaction(ticketPrice: real, standardFare: real): (r: real)
    ensures -3.0 <= r <= 1.5
  {
    if standardFare == 0.0 then (if ticketPrice < 0.0 then 1.5 else -3.0)
    else
      var ratio := ticketPrice / standardFare;
      if ratio < 0.8 then 1.5
      else if ratio < 1.0 then 1.0
      else if ratio < 1.2 then -0.5
      else if ratio < 1.5 then -1.5
      else -3.0
  }

  function AgeSatisfaction(ageInYears: real): (r: real)
    ensures -2.0 <= r <= 0.5
  {
    if ageInYears > 25.0 then -2.0
    else if ageInYears > 15.0 then -1.0
    else if ageInYears < 5.0 then 0.5
    else 0.0
  }

  /** A route counts for satisfaction when it names an aircraft the fleet has. */
  predicate Flown(route: Route, fleet: seq<AircraftInstance>) {
    route.aircraftId.Some? && FindAircraft(fleet, route.aircraftId.value).Some?
  }

  function RoutePoints(route: Route, fleet: seq<AircraftInstance>, today: int): real
    requires Flown(route, fleet)
  {
    var aircraft := FindAircraft(fleet, route.aircraftId.value).value;
    PriceSatisfaction(route.ticketPrice, StandardFare(route.distance))
      + AgeSatisfaction(AgeInYears(today, aircraft.purchaseDay))
  }

  function TallyPoints(routes: seq<Route>, fleet: seq<AircraftInstance>, today: int): real {
    if |routes| == 0 then 0.0
    else (if Flown(routes[0], fleet) then RoutePoints(routes[0], fleet, today) else 0.0)
         + TallyPoints(routes[1..], fleet, today)
  }

  function TallyCount(routes: seq<Route>, fleet: seq<AircraftInstance>): nat {
    if |routes| == 0 then 0
    else (if Flown(routes[0], fleet) then 1 else 0) + TallyCount(routes[1..], fleet)
  }

  /** The satisfaction forEach: points and the number of routes that earned them. */
  method TallySatisfaction(routes: seq<Route>, fleet: seq<AircraftInstance>, today: int)
    returns (points: real, count: nat)
    ensures points == TallyPoints(routes, fleet, today)
    ensures count == TallyCount(routes, fleet)
  {
    points, count := 0.0, 0;
    var i := 0;
    while i < |routes|
      invariant 0 <= i <= |routes|
      invariant points + TallyPoints(routes[i..], fleet, today) == TallyPoints(routes, fleet, today)
      invariant count + TallyCount(routes[i..], fleet) == TallyCount(routes, fleet)
    {
      var route := routes[i];
      assert routes[i..][1..] == routes[i + 1..];
      if route.aircraftId.Some? {
        var aircraft := FindAircraft(fleet, route.aircraftId.value);
        if aircraft.Some? {
          count := count + 1;
          var fare := route.distance * 0.30;
          points := points + PriceSatisfaction(route.ticketPrice, fare);
          points := points + AgeSatisfaction(AgeInYears(today, aircraft.value.purchaseDay));
        }
      }
      i := i + 1;
    }
  }

  /** The routes counted are exactly the routes whose aircraft the fleet has,
    * and each contributes between -5 and +2 points. */
  lemma {:induction false} TallyBounds(routes: seq<Route>, fleet: seq<AircraftInstance>, today: int)
    ensures TallyCount(routes, fleet) == |Filter(routes, (r: Route) => Flown(r, fleet))|
    ensures -5.0 * TallyCount(routes, fleet) as real <= TallyPoints(routes, fleet, today)
                                                 <= 2.0 * TallyCount(routes, fleet) as real
  {
    if |routes| > 0 {
      TallyBounds(routes[1..], fleet, today);
    }
  }

  /** The points averaged over the counted routes, 0 when none was counted. */
  function AverageChange(points: real, count: nat): real {
    if count > 0 then points / count as real else 0.0
  }

  /** The average term lies in [-5, 2], and it is 0 when no route is flown. */
  lemma AverageChangeBounds(routes: seq<Route>, fleet: seq<AircraftInstance>, today: int)
    ensures -5.0 <= AverageChange(TallyPoints(routes, fleet, today), TallyCount(routes, fleet)) <= 2.0
    ensures TallyCount(routes, fleet) == 0 ==>
              AverageChange(TallyPoints(routes, fleet, today), TallyCount(routes, fleet)) == 0.0
  {
    TallyBounds(routes, fleet, today);
    var p, n := TallyPoints(routes, fleet, today), TallyCount(routes, fleet);
    if n > 0 {
      DivBounds(p, n as real, -5.0, 2.0);
    }
  }

  /** The month's satisfaction, clamped to [0, 100]. */
  function NewSatisfaction(satisfaction: real, averageChange: real, serviceQuality: real,
                           onTime: real, inAlliance: bool): (r: real)
    ensures 0.0 <= r <= 100.0
  {
    Clamp(satisfaction + averageChange + (serviceQuality - 70.0) / 20.0 + (onTime - 90.0) / 10.0
            + (if inAlliance then AllianceSatisfactionBonus else 0.0),
          0.0, 100.0)
  }

  // ---------------------------------------------------------------------
  // Per-route income and costs

  /** What the per-route loop reads besides the route itself. */
  datatype RouteContext = RouteContext(
    satisfaction: real, brandAwareness: real, research: ResearchModifiers,
    hub: Option<string>, playerAlliance: Option<string>, alliances: seq<Alliance>,
    competitors: seq<Competitor>, closed: set<string>,
    airportDemand: map<string, real>, regionalDemand: map<string, real>,
    airports: seq<Airport>, models: seq<AircraftModel>, fleet: seq<AircraftInstance>,
    days: int, fuelPrice: real)

  datatype RouteTake = RouteTake(income: real, fuel: real, fees: real)

  const NoTake := RouteTake(0.0, 0.0, 0.0)

  function Plus(a: RouteTake, b: RouteTake): RouteTake {
    RouteTake(a.income + b.income, a.fuel + b.fuel, a.fees + b.fees)
  }

  lemma PlusAssociative(a: RouteTake, b: RouteTake, c: RouteTake)
    ensures Plus(Plus(a, b), c) == Plus(a, Plus(b, c))
  {
  }

  lemma NoTakeNeutral(a: RouteTake)
    ensures Plus(a, NoTake) == a && Plus(NoTake, a) == a
  {
  }

  /** The model of the aircraft a route names, when both are known. */
  function RouteModel(ctx: RouteContext, route: Route): Option<AircraftModel> {
    if route.aircraftId.None? then None
    else
      var aircraft := FindAircraft(ctx.fleet, route.aircraftId.value);
      if aircraft.None? then None else ModelOf(ctx.models, aircraft.value)
  }

  /** The demand chain as the settlement runs it: airport events apply, the
    * region factor only when both airports are in the catalog. */
  function SettlementDemand(ctx: RouteContext, route: Route): real {
    var origin := FindAirport(ctx.airports, route.origin);
    var destination := FindAirport(ctx.airports, route.destination);
    var eventFactor := Max(Get(ctx.airportDemand, route.origin), Get(ctx.airportDemand, route.destination));
    var regionFactor :=
      if origin.Some? && destination.Some?
      then Max(Get(ctx.regionalDemand, origin.value.region), Get(ctx.regionalDemand, destination.value.region))
      else 1.0;
    RouteDemand(route.baseDemand, ctx.research.baseDemand,
                SettlementAllianceBonus(ctx.playerAlliance, ctx.alliances, ctx.competitors, route),
                eventFactor, regionFactor, IsHubRoute(route, ctx.hub))
  }

  function SettlementShare(ctx: RouteContext, route: Route): real
    requires route.distance > 0.0 ==> route.ticketPrice != 0.0
  {
    MarketShare(PlayerScore(route, ctx.satisfaction, ctx.brandAwareness),
                |CompetitorsOnRoute(ctx.competitors, ctx.playerAlliance, route)|)
  }

  /** Daily passengers of a flown route whose aircraft has `seats` seats. */
  function RoutePassengers(ctx: RouteContext, route: Route, seats: int): (p: int)
    requires route.distance > 0.0 ==> route.ticketPrice != 0.0
    ensures p <= seats
  {
    DailyPassengers(seats, SettlementDemand(ctx, route), SettlementShare(ctx, route),
                    SatisfactionMultiplier(ctx.satisfaction))
  }

  /** A month of a flown route: the ticket income of the daily passengers,
    * the out-and-back fuel bill and the daily airport fee, each for every day. */
  function MonthTake(passengers: int, ticketPrice: real, distance: real, fuelEfficiency: real,
                     fuelPrice: real, dailyFee: real, days: int): RouteTake
  {
    RouteTake(OverDays(DailyFare(passengers, ticketPrice), days),
              OverDays(DailyFuel(distance, fuelEfficiency, fuelPrice), days),
              OverDays(dailyFee, days))
  }

  /** The income, fuel and fees of a route flown by an aircraft of model `m`. */
  function FlownTake(ctx: RouteContext, route: Route, m: AircraftModel): RouteTake
    requires route.distance > 0.0 ==> route.ticketPrice != 0.0
  {
    MonthTake(RoutePassengers(ctx, route, m.seats), route.ticketPrice, route.distance, m.fuelEfficiency,
              ctx.fuelPrice, DailyAirportFee(route, ctx.hub), ctx.days)
  }

  /** One pass of the per-route forEach. A route without an aircraft, with a
    * closed endpoint, or whose aircraft or model is unknown adds nothing. */
  function RouteSettlement(ctx: RouteContext, route: Route): (r: RouteTake)
    requires route.distance > 0.0 ==> route.ticketPrice != 0.0
    ensures route.aircraftId.None? || IsRouteClosed(route, ctx.closed) || RouteModel(ctx, route).None?
            ==> r == NoTake
  {
    if route.aircraftId.None? || IsRouteClosed(route, ctx.closed) then NoTake
    else
      var model := RouteModel(ctx, route);
      if model.None? then NoTake else FlownTake(ctx, route, model.value)
  }

  /** For a flown, open route: income is capped by a full aircraft every day,
    * the fee is the hub-discounted daily fee for every day, and the fuel
    * bill does not depend on demand. */
  lemma RouteSettlementFlown(ctx: RouteContext, route: Route, m: AircraftModel)
    requires route.distance > 0.0 ==> route.ticketPrice != 0.0
    requires route.aircraftId.Some? && !IsRouteClosed(route, ctx.closed) && RouteModel(ctx, route) == Some(m)
    requires route.ticketPrice >= 0.0 && ctx.days >= 0
    ensures RouteSettlement(ctx, route).income <= OverDays(DailyFare(m.seats, route.ticketPrice), ctx.days)
    ensures RouteSettlement(ctx, route).fees == OverDays(DailyAirportFee(route, ctx.hub), ctx.days)
    ensures RouteSettlement(ctx, route).fuel
            == OverDays(DailyFuel(route.distance, m.fuelEfficiency, ctx.fuelPrice), ctx.days)
  {
    FlownIsTake(ctx, route, m);
    var passengers := RoutePassengers(ctx, route, m.seats);
    FullFareBound(passengers, m.seats, route.ticketPrice, ctx.days);
  }

  lemma FlownIsTake(ctx: RouteContext, route: Route, m: AircraftModel)
    requires route.distance > 0.0 ==> route.ticketPrice != 0.0
    requires route.aircraftId.Some? && !IsRouteClosed(route, ctx.closed) && RouteModel(ctx, route) == Some(m)
    ensures RouteSettlement(ctx, route) == FlownTake(ctx, route, m)
  {
  }

  function RouteTotals(ctx: RouteContext, routes: seq<Route>): RouteTake
    requires PricedRoutes(routes)
  {
    if |routes| == 0 then NoTake
    else Plus(RouteSettlement(ctx, routes[0]), RouteTotals(ctx, routes[1..]))
  }

  /** A route that flies nothing leaves the month's totals unchanged wherever it
    * sits in the list. */
  lemma {:induction false} RouteTotalsSkipIdle(ctx: RouteContext, before: seq<Route>, route: Route, after: seq<Route>)
    requires PricedRoutes(before + [route] + after)
    requires route.aircraftId.None? || IsRouteClosed(route, ctx.closed)
    ensures PricedRoutes(before + after)
    ensures RouteTotals(ctx, before + [route] + after) == RouteTotals(ctx, before + after)
  {
    var all := before + [route] + after;
    assert forall i :: 0 <= i < |before + after| ==>
      (before + after)[i] == (if i < |before| then all[i] else all[i + 1]);
    if |before| == 0 {
      assert all[1..] == after && before + after == after;
    } else {
      assert all[0] == before[0];
      assert all[1..] == before[1..] + [route] + after;
      assert (before + after)[1..] == before[1..] + after;
      RouteTotalsSkipIdle(ctx, before[1..], route, after);
    }
  }

  /** The per-route forEach accumulating income, fuel and fees. */
  method AccumulateRoutes(ctx: RouteContext, routes: seq<Route>) returns (total: RouteTake)
    requires PricedRoutes(routes)
    ensures total == RouteTotals(ctx, routes)
  {
    total := NoTake;
    var i := 0;
    while i < |routes|
      invariant 0 <= i <= |routes|
      invariant PricedRoutes(routes[i..])
      invariant Plus(total, RouteTotals(ctx, routes[i..])) == RouteTotals(ctx, routes)
    {
      assert routes[i..][1..] == routes[i + 1..];
      var take := RouteSettlement(ctx, routes[i]);
      ghost var rest := RouteTotals(ctx, routes[i + 1..]);
      assert RouteTotals(ctx, routes[i..]) == Plus(take, rest);
      PlusAssociative(total, take, rest);
      total := Plus(total, take);
      i := i + 1;
    }
    NoTakeNeutral(total);
  }

  // ---------------------------------------------------------------------
  // Totals and the report

  /** The monthly maintenance of the fleet, 0 for an aircraft of unknown model. */
  function FleetMaintenance(fleet: seq<AircraftInstance>, models: seq<AircraftModel>): real {
    if |fleet| == 0 then 0.0
    else
      var m := ModelOf(models, fleet[0]);
      (if m.Some? then m.value.monthlyMaintenance else 0.0) + FleetMaintenance(fleet[1..], models)
  }

  function SalaryCost(fleetSize: nat, routeCount: nat): real {
    BaseSalaryCost + fleetSize as real * SalaryPerAircraft + routeCount as real * SalaryPerRoute
  }

  /** Each aircraft bought adds 40,000 and each route opened 15,000 to the
    * monthly salary bill before the expense modifier. */
  lemma SalaryGrowth(fleetSize: nat, routeCount: nat)
    ensures SalaryCost(fleetSize + 1, routeCount) == SalaryCost(fleetSize, routeCount) + 40000.0
    ensures SalaryCost(fleetSize, routeCount + 1) == SalaryCost(fleetSize, routeCount) + 15000.0
    ensures SalaryCost(0, 0) == 200000.0
  {
  }

  /** The rounded figures of the month: income scaled by the income modifier;
    * maintenance, fees and salaries scaled by the expense modifier; fuel only rounded. */
  function MonthReport(monthDay: int, totals: RouteTake, maintenance: real, salaries: real,
                       incomeModifier: real, expenseModifier: real): (r: FinancialReport)
    ensures r.expenses.total == r.expenses.maintenance + r.expenses.fuel
                                + r.expenses.airportFees + r.expenses.salaries
  {
    var m := Round(maintenance * expenseModifier);
    var f := Round(totals.fuel);
    var a := Round(totals.fees * expenseModifier);
    var s := Round(salaries * expenseModifier);
    FinancialReport(monthDay, Round(totals.income * incomeModifier), Expenses(m, f, a, s, m + a + s + f))
  }

  /** The expense modifier never touches fuel; with both modifiers at 1 every
    * figure is just the rounded raw amount. */
  lemma MonthReportModifiers(monthDay: int, totals: RouteTake, maintenance: real, salaries: real,
                             incomeModifier: real, e1: real, e2: real)
    ensures MonthReport(monthDay, totals, maintenance, salaries, incomeModifier, e1).expenses.fuel
         == MonthReport(monthDay, totals, maintenance, salaries, incomeModifier, e2).expenses.fuel
    ensures var r := MonthReport(monthDay, totals, maintenance, salaries, 1.0, 1.0);
            r.income == Round(totals.income) && r.expenses.maintenance == Round(maintenance) &&
            r.expenses.airportFees == Round(totals.fees) && r.expenses.salaries == Round(salaries)
  {
  }

  // ---------------------------------------------------------------------
  // The whole settlement

  datatype Settlement = Settlement(
    report: FinancialReport, newCash: real, satisfaction: real, onTime: real, fuelPrice: real)

  /** The random draws of the month's on-time update. */
  datatype OnTimeRolls = OnTimeRolls(aging: seq<bool>, recovery: bool)

  /** The per-route context of the month: the new satisfaction, the event
    * and campaign maps, and the month's fuel price. */
  function MonthContext(p: Player, competitors: seq<Competitor>, alliances: seq<Alliance>,
                        events: seq<ActiveEvent>, models: seq<AircraftModel>, airports: seq<Airport>,
                        days: int, satisfaction: real): RouteContext
  {
    RouteContext(satisfaction, p.brandAwareness, p.researchModifiers, p.hubAirportId,
                 p.allianceId, alliances, competitors, ClosedAirports(events),
                 AirportDemandModifiers(events), RegionalDemandModifiers(p.activeCampaigns),
                 airports, models, p.fleet, days, CurrentFuelPrice(events, p.researchModifiers))
  }

  /** The report of the month for the player's routes and fleet. */
  function PlayerReport(p: Player, ctx: RouteContext, events: seq<ActiveEvent>,
                        models: seq<AircraftModel>, monthDay: int): FinancialReport
    requires PricedRoutes(p.routes)
  {
    ReportFromTotals(p, RouteTotals(ctx, p.routes), events, models, monthDay)
  }

  /** The report once the per-route totals are known: maintenance scaled by
    * research, salaries from the fleet and route counts, the event modifiers. */
  function ReportFromTotals(p: Player, totals: RouteTake, events: seq<ActiveEvent>,
                            models: seq<AircraftModel>, monthDay: int): FinancialReport
  {
    MonthReport(monthDay, totals,
                FleetMaintenance(p.fleet, models) * p.researchModifiers.maintenance,
                SalaryCost(|p.fleet|, |p.routes|),
                Modifier(events, IncomeKind), Modifier(events, ExpenseKind))
  }

  /** The settlement of one month from the snapshot: the player, competitors,
    * alliances and active events as they were before the tick (expired events
    * included), with `days` days in the settled month. */
  function SettleMonth(p: Player, competitors: seq<Competitor>, alliances: seq<Alliance>,
                       events: seq<ActiveEvent>, models: seq<AircraftModel>, airports: seq<Airport>,
                       today: int, days: int, monthDay: int, rolls: OnTimeRolls): Settlement
    requires |rolls.aging| == |p.fleet|
    requires PricedRoutes(p.routes)
  {
    var onTime := NewOnTimePerformance(p.onTimePerformance, p.fleet, today, rolls.aging, rolls.recovery);
    var average := AverageChange(TallyPoints(p.routes, p.fleet, today), TallyCount(p.routes, p.fleet));
    var satisfaction := NewSatisfaction(p.satisfaction, average, p.serviceQuality, onTime, p.allianceId.Some?);
    var ctx := MonthContext(p, competitors, alliances, events, models, airports, days, satisfaction);
    var report := PlayerReport(p, ctx, events, models, monthDay);
    Settlement(report, p.cash + report.income as real - report.expenses.total as real,
               satisfaction, onTime, ctx.fuelPrice)
  }

  /** The final setPlayer of the month: cash, last month's figures,
    * satisfaction, on-time performance and fuel price come from the
    * settlement, and the report is appended to the history whatever the cash. */
  function ApplySettlement(p: Player, s: Settlement): (q: Player)
    ensures q.financialHistory == p.financialHistory + [s.report]
    ensures q.cash == s.newCash && q.satisfaction == s.satisfaction && q.onTimePerformance == s.onTime
    ensures q.fleet == p.fleet && q.routes == p.routes && q.researchModifiers == p.researchModifiers
    ensures q == p.(cash := s.newCash, satisfaction := s.satisfaction, onTimePerformance := s.onTime,
                    fuelPrice := q.fuelPrice, lastMonthIncome := q.lastMonthIncome,
                    lastMonthExpense := q.lastMonthExpense, financialHistory := p.financialHistory + [s.report])
    ensures q.lastMonthIncome == Some(s.report.income) && q.lastMonthExpense == Some(s.report.expenses.total) &&
            q.fuelPrice == s.fuelPrice
  {
    p.(cash := s.newCash,
       lastMonthIncome := Some(s.report.income),
       lastMonthExpense := Some(s.report.expenses.total),
       satisfaction := s.satisfaction,
       onTimePerformance := s.onTime,
       fuelPrice := s.fuelPrice,
       financialHistory := p.financialHistory + [s.report])
  }

  /** The settlement as the effect runs it: loops over the fleet, the routes,
    * the events and the campaigns, then the totals. */
  method Settle(p: Player, competitors: seq<Competitor>, alliances: seq<Alliance>,
                events: seq<ActiveEvent>, models: seq<AircraftModel>, airports: seq<Airport>,
                today: int, days: int, monthDay: int, rolls: OnTimeRolls) returns (s: Settlement)
    requires |rolls.aging| == |p.fleet|
    requires PricedRoutes(p.routes)
    ensures s == SettleMonth(p, competitors, alliances, events, models, airports, today, days, monthDay, rolls)
    ensures 70.0 <= s.onTime <= 99.0 && 0.0 <= s.satisfaction <= 100.0
    ensures s.newCash == p.cash + s.report.income as real - s.report.expenses.total as real
  {
    var onTime := UpdateOnTimePerformance(p.onTimePerformance, p.fleet, today, rolls.aging, rolls.recovery);
    var satisfaction := SettleSatisfaction(p, today, onTime);
    var ctx := SettleContext(p, competitors, alliances, events, models, airports, days, satisfaction);
    var report := SettleReport(p, ctx, events, models, monthDay);
    s := Settlement(report, p.cash + report.income as real - report.expenses.total as real,
                    satisfaction, onTime, ctx.fuelPrice);
  }

  /** The satisfaction steps: the per-route tally, its average, then the clamped update. */
  method SettleSatisfaction(p: Player, today: int, onTime: real) returns (satisfaction: real)
    ensures satisfaction == NewSatisfaction(p.satisfaction,
                                            AverageChange(TallyPoints(p.routes, p.fleet, today), TallyCount(p.routes, p.fleet)),
                                            p.serviceQuality, onTime, p.allianceId.Some?)
  {
    var points, count := TallySatisfaction(p.routes, p.fleet, today);
    var average := AverageChange(points, count);
    satisfaction := NewSatisfaction(p.satisfaction, average, p.serviceQuality, onTime, p.allianceId.Some?);
  }

  /** The maps and the fuel price the per-route loop reads, built from the events. */
  method SettleContext(p: Player, competitors: seq<Competitor>, alliances: seq<Alliance>,
                       events: seq<ActiveEvent>, models: seq<AircraftModel>, airports: seq<Airport>,
                       days: int, satisfaction: real) returns (ctx: RouteContext)
    ensures ctx == MonthContext(p, competitors, alliances, events, models, airports, days, satisfaction)
  {
    var closed := CollectClosedAirports(events);
    var airportDemand := BuildAirportDemandModifiers(events);
    var regionalDemand := BuildRegionalDemandModifiers(p.activeCampaigns);
    var fuelPrice := CurrentFuelPrice(events, p.researchModifiers);
    ctx := RouteContext(satisfaction, p.brandAwareness, p.researchModifiers, p.hubAirportId,
                        p.allianceId, alliances, competitors, closed, airportDemand, regionalDemand,
                        airports, models, p.fleet, days, fuelPrice);
  }

  /** The report steps: the route totals, maintenance and salaries, then the event modifiers. */
  method SettleReport(p: Player, ctx: RouteContext, events: seq<ActiveEvent>,
                      models: seq<AircraftModel>, monthDay: int) returns (report: FinancialReport)
    requires PricedRoutes(p.routes)
    ensures report == PlayerReport(p, ctx, events, models, monthDay)
  {
    var totals := AccumulateRoutes(ctx, p.routes);
    report := ReportFromTotals(p, totals, events, models, monthDay);
  }

  /** A month with no routes earns nothing and pays only maintenance and
    * salaries, scaled by the expense modifier. */
  lemma NoRoutesReport(p: Player, ctx: RouteContext, events: seq<ActiveEvent>,
                       models: seq<AircraftModel>, monthDay: int)
    requires |p.routes| == 0
    ensures var r := PlayerReport(p, ctx, events, models, monthDay);
            r.income == 0 && r.expenses.fuel == 0 && r.expenses.airportFees == 0 &&
            r.expenses.salaries == Round((200000.0 + 40000.0 * |p.fleet| as real) * Modifier(events, ExpenseKind)) &&
            r.income - r.expenses.total == -(r.expenses.maintenance + r.expenses.salaries)
  {
    assert RouteTotals(ctx, p.routes) == NoTake;
    RoundIntegral(0);
    assert SalaryCost(|p.fleet|, |p.routes|) == 200000.0 + 40000.0 * |p.fleet| as real;
  }
}
