/** The entities of the game (types.ts) and the lookups every part of the
  * game performs on them (Array.prototype.find / findIndex by id).
  * Display-only fields (names, images, colours, coordinates) are not modelled;
  * dates are day numbers. */
module Model {
  import opened Common

  /** Aircraft ids are numbers made from the clock; here they are integers. */
  type AircraftId = int

  /** The member id the player has in an alliance's member list. */
  const PlayerMember: string := "player"

  datatype Status = Idle | InService

  datatype AircraftModel = AircraftModel(
    id: string, price: int, seats: int, range: real,
    monthlyMaintenance: real, fuelEfficiency: real)

  /** `age` is never read by the game (ages are computed from the purchase day). */
  datatype AircraftInstance = AircraftInstance(
    id: AircraftId, modelId: string, purchaseDay: int, status: Status,
    routeId: Option<string>)

  datatype Airport = Airport(id: string, region: string, size: int)

  datatype Route = Route(
    id: string, origin: string, destination: string, distance: real,
    aircraftId: Option<AircraftId>, ticketPrice: real, baseDemand: real)

  datatype ResearchModifiers = ResearchModifiers(
    fuelEfficiency: real, maintenance: real, baseDemand: real)

  datatype Alliance = Alliance(id: string, name: string, members: seq<string>)

  datatype ResearchEffect = ResearchEffect(
    fuelEfficiencyModifier: Option<real>, maintenanceModifier: Option<real>,
    baseDemandModifier: Option<real>, satisfaction: Option<real>,
    serviceQuality: Option<real>, cash: Option<real>)

  datatype ResearchProject = ResearchProject(
    id: string, cost: real, durationDays: int, effects: ResearchEffect,
    prerequisites: seq<string>)

  datatype ActiveResearch = ActiveResearch(project: ResearchProject, startDay: int)

  datatype RegionalModifier = RegionalModifier(region: string, multiplier: real)

  datatype CampaignEffect = CampaignEffect(
    brandAwareness: Option<real>, regionalDemandModifier: Option<RegionalModifier>)

  datatype MarketingCampaign = MarketingCampaign(
    id: string, cost: real, durationDays: int, effects: CampaignEffect)

  datatype ActiveCampaign = ActiveCampaign(
    campaign: MarketingCampaign, startDay: int, expiryDay: int)

  datatype AirportEffect = AirportEffect(
    airportId: string, demandMultiplier: Option<real>, isClosed: bool)

  datatype EventEffect = EventEffect(
    cash: Option<real>, satisfaction: Option<real>,
    expenseModifier: Option<real>, incomeModifier: Option<real>,
    fuelPriceModifier: Option<real>, airportEffects: seq<AirportEffect>)

  datatype GameEvent = GameEvent(id: string, durationDays: int, effects: EventEffect)

  datatype ActiveEvent = ActiveEvent(event: GameEvent, startDay: int, expiryDay: int)

  datatype Expenses = Expenses(
    maintenance: int, fuel: int, airportFees: int, salaries: int, total: int)

  /** `monthDay` is the day number of the last day of the settled month. */
  datatype FinancialReport = FinancialReport(monthDay: int, income: int, expenses: Expenses)

  datatype Player = Player(
    companyName: string,
    cash: real,
    fleet: seq<AircraftInstance>,
    routes: seq<Route>,
    lastMonthIncome: Option<int>,
    lastMonthExpense: Option<int>,
    satisfaction: real,
    serviceQuality: real,
    onTimePerformance: real,
    brandAwareness: real,
    fuelPrice: real,
    hubAirportId: Option<string>,
    financialHistory: seq<FinancialReport>,
    activeResearch: Option<ActiveResearch>,
    completedResearch: seq<string>,
    researchModifiers: ResearchModifiers,
    activeCampaigns: seq<ActiveCampaign>,
    allianceId: Option<string>)

  datatype Competitor = Competitor(
    id: string, name: string, cash: real, fleet: seq<AircraftInstance>,
    routes: seq<Route>, allianceId: Option<string>)

  // ---------------------------------------------------------------------
  // Lookups

  /** Array.prototype.findIndex: the first index whose element satisfies `p`. */
  function FindIndex<T>(s: seq<T>, p: T -> bool): (r: Option<nat>)
    ensures r.Some? ==> r.value < |s| && p(s[r.value])
    ensures r.Some? ==> forall j :: 0 <= j < r.value ==> !p(s[j])
    ensures r.None? ==> forall j :: 0 <= j < |s| ==> !p(s[j])
  {
    if |s| == 0 then None
    else if p(s[0]) then Some(0)
    else
      var rest := FindIndex(s[1..], p);
      if rest.Some? then Some(rest.value + 1) else None
  }

  /** Array.prototype.find: the first element satisfying `p`. */
  function Find<T>(s: seq<T>, p: T -> bool): (r: Option<T>)
    ensures r.Some? ==> r.value in s && p(r.value)
    ensures r.None? ==> forall x :: x in s ==> !p(x)
    ensures r.Some? ==> exists i :: 0 <= i < |s| && s[i] == r.value && forall j :: 0 <= j < i ==> !p(s[j])
  {
    var i := FindIndex(s, p);
    if i.Some? then Some(s[i.value]) else None
  }

  /** Array.prototype.filter: the elements satisfying `p`, in their order. */
  function Filter<T>(s: seq<T>, p: T -> bool): (r: seq<T>)
    ensures |r| <= |s|
    ensures forall x :: x in r ==> x in s && p(x)
    ensures forall x :: x in s && p(x) ==> x in r
  {
    if |s| == 0 then [] else (if p(s[0]) then [s[0]] else []) + Filter(s[1..], p)
  }

  /** Filtering out every element leaves nothing. */
  lemma {:induction false} FilterNoneKept<T>(s: seq<T>, p: T -> bool)
    requires forall x :: x in s ==> !p(x)
    ensures Filter(s, p) == []
  {
    if |s| > 0 {
      assert s[0] in s;
      FilterNoneKept(s[1..], p);
    }
  }

  /** No two elements share a key. */
  predicate UniqueBy<T, K(==)>(s: seq<T>, key: T -> K) {
    forall i, j :: 0 <= i < j < |s| ==> key(s[i]) != key(s[j])
  }

  /** Whatever a filter keeps was in the list. */
  lemma {:induction false} FilterSubset<T>(s: seq<T>, p: T -> bool, x: T)
    ensures x in Filter(s, p) ==> x in s
  {
  }

  /** Filtering keeps keys unique. */
  lemma {:induction false} FilterKeepsUnique<T, K>(s: seq<T>, p: T -> bool, key: T -> K)
    requires UniqueBy(s, key)
    ensures UniqueBy(Filter(s, p), key)
  {
    if |s| > 0 {
      var rest := s[1..];
      assert UniqueBy(rest, key) by {
        forall i, j | 0 <= i < j < |rest| ensures key(rest[i]) != key(rest[j]) {
          assert rest[i] == s[i + 1] && rest[j] == s[j + 1];
        }
      }
      FilterKeepsUnique(rest, p, key);
      var tail := Filter(rest, p);
      forall x | x in tail ensures key(x) != key(s[0]) {
        FilterSubset(rest, p, x);
        var k :| 0 <= k < |rest| && rest[k] == x;
        assert s[k + 1] == x;
      }
      var head: seq<T> := if p(s[0]) then [s[0]] else [];
      assert Filter(s, p) == head + tail;
      forall i, j | 0 <= i < j < |head + tail| ensures key((head + tail)[i]) != key((head + tail)[j]) {
        if |head| == 1 && i == 0 {
          assert (head + tail)[j] == tail[j - 1];
          assert tail[j - 1] in tail;
        } else {
          assert (head + tail)[i] == tail[i - |head|] && (head + tail)[j] == tail[j - |head|];
        }
      }
    }
  }

  function FindModel(models: seq<AircraftModel>, id: string): Option<AircraftModel> {
    Find(models, (m: AircraftModel) => m.id == id)
  }

  function FindAirport(airports: seq<Airport>, id: string): Option<Airport> {
    Find(airports, (a: Airport) => a.id == id)
  }

  function FindAircraft(fleet: seq<AircraftInstance>, id: AircraftId): Option<AircraftInstance> {
    Find(fleet, (a: AircraftInstance) => a.id == id)
  }

  function AircraftIndex(fleet: seq<AircraftInstance>, id: AircraftId): Option<nat> {
    FindIndex(fleet, (a: AircraftInstance) => a.id == id)
  }

  function RouteIndex(routes: seq<Route>, id: string): Option<nat> {
    FindIndex(routes, (r: Route) => r.id == id)
  }

  function FindAlliance(alliances: seq<Alliance>, id: string): Option<Alliance> {
    Find(alliances, (a: Alliance) => a.id == id)
  }

  /** The model of an aircraft, when the catalog has it. */
  function ModelOf(models: seq<AircraftModel>, a: AircraftInstance): Option<AircraftModel> {
    FindModel(models, a.modelId)
  }

  // ---------------------------------------------------------------------
  // Shapes of the data

  /** Does a route fly between the two airports, in either direction? */
  predicate ServesPair(r: Route, a: string, b: string) {
    (r.origin == a && r.destination == b) || (r.origin == b && r.destination == a)
  }

  /** Does some route of the list serve the pair? */
  predicate FliesPair(routes: seq<Route>, a: string, b: string) {
    exists i :: 0 <= i < |routes| && ServesPair(routes[i], a, b)
  }

  /** Elapsed years between two day numbers: milliseconds / (1000 * 365.25 * 24 * 60 * 60). */
  function AgeInYears(today: int, purchaseDay: int): real {
    (today - purchaseDay) as real / 365.25
  }

  predicate UniqueAircraftIds(fleet: seq<AircraftInstance>) {
    forall i, j :: 0 <= i < j < |fleet| ==> fleet[i].id != fleet[j].id
  }

  predicate UniqueRouteIds(routes: seq<Route>) {
    forall i, j :: 0 <= i < j < |routes| ==> routes[i].id != routes[j].id
  }

  function AircraftIds(fleet: seq<AircraftInstance>): seq<AircraftId> {
    seq(|fleet|, i requires 0 <= i < |fleet| => fleet[i].id)
  }

  function RouteIds(routes: seq<Route>): seq<string> {
    seq(|routes|, i requires 0 <= i < |routes| => routes[i].id)
  }

  /** The link between a fleet and its routes that the assignment commands keep:
    * an aircraft is in service exactly when it names a route, a route names
    * aircraft `a` exactly when `a` names that route, and every name resolves. */
  predicate Consistent(fleet: seq<AircraftInstance>, routes: seq<Route>) {
    UniqueAircraftIds(fleet) && UniqueRouteIds(routes) &&
    (forall j :: 0 <= j < |fleet| ==> (fleet[j].status == InService <==> fleet[j].routeId.Some?)) &&
    (forall i, j :: 0 <= i < |routes| && 0 <= j < |fleet| ==>
       (routes[i].aircraftId == Some(fleet[j].id) <==> fleet[j].routeId == Some(routes[i].id))) &&
    (forall i :: 0 <= i < |routes| && routes[i].aircraftId.Some? ==> routes[i].aircraftId.value in AircraftIds(fleet)) &&
    (forall j :: 0 <= j < |fleet| && fleet[j].routeId.Some? ==> fleet[j].routeId.value in RouteIds(routes))
  }

  /** In a consistent state the aircraft a route names is in service on that route. */
  lemma ConsistentRouteAircraft(fleet: seq<AircraftInstance>, routes: seq<Route>, i: nat)
    requires Consistent(fleet, routes)
    requires i < |routes| && routes[i].aircraftId.Some?
    ensures AircraftIndex(fleet, routes[i].aircraftId.value).Some?
    ensures var j := AircraftIndex(fleet, routes[i].aircraftId.value).value;
            fleet[j].status == InService && fleet[j].routeId == Some(routes[i].id)
  {
    var id := routes[i].aircraftId.value;
    assert id in AircraftIds(fleet);
    var k :| 0 <= k < |fleet| && AircraftIds(fleet)[k] == id;
    assert fleet[k].id == id;
  }
}
