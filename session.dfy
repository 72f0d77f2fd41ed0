/** The running game of App.tsx as one object: the player, the competitors,
  * the alliances, the clock and the modal state that gates the monthly step.
  * Each state change of the app is a method; each method is proved against a
  * function of the state before it (`State()` before and after). */
module Session {
  import opened Common
  import opened Model
  import opened RouteEconomics
  import opened Settlement
  import opened AiTurn
  import opened Lifecycle
  import opened Commands

  const StartingCash: real := 500000000.0

  /** handleGameStart's player. */
  function NewPlayer(companyName: string): Player {
    Player(companyName, StartingCash, [], [], None, None, 70.0, 70.0, 95.0, 20.0, 1.2, None, [], None, [],
           ResearchModifiers(1.0, 1.0, 1.0), [], None)
  }

  function IdleAircraft(id: AircraftId, modelId: string, day: int): AircraftInstance {
    AircraftInstance(id, modelId, day, Idle, None)
  }

  /** The four AI airlines of a new game, each with two idle aircraft bought
    * on the start day; `ids` are their generated aircraft ids. */
  function StartingCompetitors(ids: seq<AircraftId>, day: int): seq<Competitor>
    requires |ids| == 8
  {
    [Competitor("ai-1", "Quantum Airlines", 400000000.0,
                [IdleAircraft(ids[0], "B737", day), IdleAircraft(ids[1], "A320", day)], [], None),
     Competitor("ai-2", "Starlight Airways", 350000000.0,
                [IdleAircraft(ids[2], "B737", day), IdleAircraft(ids[3], "E190", day)], [], None),
     Competitor("ai-3", "Apex Air", 380000000.0,
                [IdleAircraft(ids[4], "A320", day), IdleAircraft(ids[5], "E190", day)], [], None),
     Competitor("ai-4", "Velocity Wings", 320000000.0,
                [IdleAircraft(ids[6], "B737", day), IdleAircraft(ids[7], "ATR72", day)], [], None)]
  }

  /** Everything the app keeps between two renders that the engine reads. */
  datatype SessionState = SessionState(
    player: Player, competitors: seq<Competitor>, alliances: seq<Alliance>,
    today: int, lastProcessedMonth: int,
    activeEvents: seq<ActiveEvent>, eventHistory: seq<ActiveEvent>,
    state: GameState, speed: int, lastSpeed: int, speedBeforeReport: int,
    financialReport: Option<FinancialReport>, eventToShow: Option<ActiveEvent>)

  /** A fresh app after handleGameStart: paused, playing, nothing pending. */
  function NewGame(companyName: string, aiAircraftIds: seq<AircraftId>, startDay: int, startMonth: int): SessionState
    requires |aiAircraftIds| == 8
  {
    SessionState(NewPlayer(companyName), StartingCompetitors(aiAircraftIds, startDay), [],
                 startDay, startMonth, [], [], Playing, 0, 1, 0, None, None)
  }

  /** What every step keeps: the fleet and the routes agree, every ticket price
    * can divide the standard fare, the event history is capped, satisfaction
    * lies in [0, 100] and on-time performance in [70, 99]. */
  predicate ValidState(s: SessionState) {
    Consistent(s.player.fleet, s.player.routes) && PricedRoutes(s.player.routes) &&
    |s.eventHistory| <= EventHistoryLimit &&
    0.0 <= s.player.satisfaction <= 100.0 && 70.0 <= s.player.onTimePerformance <= 99.0
  }

  /** A new game starts in a valid state, with the four AI airlines holding two
    * idle aircraft each and 1,450,000,000 between them. */
  lemma NewGameValid(companyName: string, aiAircraftIds: seq<AircraftId>, startDay: int, startMonth: int)
    requires |aiAircraftIds| == 8
    ensures var s := NewGame(companyName, aiAircraftIds, startDay, startMonth);
            ValidState(s) && s.state == Playing && s.speed == 0 && s.player.cash == 500000000.0 &&
            |s.competitors| == 4 &&
            (forall k :: 0 <= k < 4 ==> |s.competitors[k].fleet| == 2 && s.competitors[k].allianceId.None? &&
                                        forall a :: a in s.competitors[k].fleet ==> a.status == Idle) &&
            s.competitors[0].cash + s.competitors[1].cash + s.competitors[2].cash + s.competitors[3].cash == 1450000000.0
  {
    var s := NewGame(companyName, aiAircraftIds, startDay, startMonth);
    assert s.player.fleet == [] && s.player.routes == [];
  }

  // ---------------------------------------------------------------------
  // The clock

  /** One day of the game loop: the date moves on and the daily effect runs.
    * A paused or finished game does not move. */
  function AdvanceDayState(s: SessionState, noticeId: string): SessionState {
    if s.speed == 0 || s.state != Playing then s
    else
      var today := s.today + 1;
      var r := DailyStep(s.player, today, noticeId);
      s.(today := today, player := r.player, eventToShow := if r.notice.Some? then r.notice else s.eventToShow)
  }

  /** The game-over effect. */
  function GameOverState(s: SessionState): SessionState {
    var (state, speed) := GameOverCheck(s.player.cash, s.state, s.speed);
    s.(state := state, speed := speed)
  }

  /** The day keeps the state valid; a running game is one day later, its
    * player is the daily step's result and it shows the completion notice
    * when research came due; a paused or finished game does not change. */
  lemma AdvanceDayKeepsValid(s: SessionState, noticeId: string)
    requires ValidState(s)
    ensures var r := AdvanceDayState(s, noticeId);
            ValidState(r) && r.competitors == s.competitors && r.player.fleet == s.player.fleet &&
            (s.speed != 0 && s.state == Playing ==>
               r.today == s.today + 1 && r.player == DailyStep(s.player, s.today + 1, noticeId).player &&
               (ResearchDue(s.player, s.today + 1) ==> r.eventToShow.Some? && r.player.activeResearch.None?)) &&
            (s.speed == 0 || s.state != Playing ==> r == s)
  {
    if s.speed != 0 && s.state == Playing {
      var r := DailyStep(s.player, s.today + 1, noticeId);
      if ResearchDue(s.player, s.today + 1) {
        assert r.player.activeResearch == CompleteResearch(s.player).activeResearch;
      }
    }
  }

  // ---------------------------------------------------------------------
  // The month

  /** The inputs of one monthly step: the month index of the new date, the
    * number of days and the last day of the settled month, the catalogs, and
    * every random draw and generated id. */
  datatype MonthInputs = MonthInputs(
    month: int, days: int, monthDay: int,
    models: seq<AircraftModel>, airports: seq<Airport>, dist: (Airport, Airport) -> real,
    eventCatalog: seq<GameEvent>, eventRoll: bool, eventPick: nat,
    choices: seq<TurnChoice>, allianceChoice: AllianceChoice, rolls: OnTimeRolls)

  /** The monthly effect runs while playing, with no report or event on
    * screen, once the month index differs from the last one processed. */
  predicate MonthDue(s: SessionState, month: int) {
    s.state == Playing && s.financialReport.None? && s.eventToShow.None? && month != s.lastProcessedMonth
  }

  predicate MonthInputsFit(s: SessionState, m: MonthInputs) {
    |m.eventCatalog| > 0 && |m.choices| == |s.competitors| && |m.rolls.aging| == |s.player.fleet|
  }

  /** The settlement of the month, computed from the state before the step. */
  function MonthSettlement(s: SessionState, m: MonthInputs): Settlement
    requires MonthInputsFit(s, m) && PricedRoutes(s.player.routes)
  {
    SettleMonth(s.player, s.competitors, s.alliances, s.activeEvents, m.models, m.airports,
                s.today, m.days, m.monthDay, m.rolls)
  }

  /** The AI turn: every competitor plays, and a new AI alliance joins the list. */
  function AiStep(s: SessionState, m: MonthInputs): SessionState
    requires MonthInputsFit(s, m)
  {
    var ai := AiTurnResult(s.competitors, s.player, m.models, m.airports, m.dist, m.days as real, s.today,
                           m.choices, m.allianceChoice);
    s.(competitors := ai.0, alliances := s.alliances + (if ai.1.Some? then [ai.1.value] else []))
  }

  /** The event step: expiry, and on the draw a new event applied and shown. */
  function EventStep(s: SessionState, m: MonthInputs): SessionState
    requires |m.eventCatalog| > 0
  {
    var ev := MonthlyEvents(s.activeEvents, s.eventHistory, s.player, s.today, m.eventRoll, m.eventPick, m.eventCatalog);
    s.(player := ev.player, activeEvents := ev.events, eventHistory := ev.history,
       eventToShow := if ev.shown.Some? then ev.shown else s.eventToShow)
  }

  /** The final update: the settlement lands on the player, the report is shown
    * and the clock stopped when the new cash is not negative, and the month is
    * marked processed. */
  function SettleStep(s: SessionState, st: Settlement, month: int): SessionState {
    var shown := st.newCash >= 0.0;
    s.(player := ApplySettlement(s.player, st),
       speedBeforeReport := if shown then s.speed else s.speedBeforeReport,
       speed := if shown && s.speed > 0 then 0 else s.speed,
       financialReport := if shown then Some(st.report) else s.financialReport,
       lastProcessedMonth := month)
  }

  /** The monthly effect: the AI turn, the event step and the settlement; the
    * settlement reads the state as it was before the other two. */
  function MonthlyTickState(s: SessionState, m: MonthInputs): SessionState
    requires MonthInputsFit(s, m) && PricedRoutes(s.player.routes)
  {
    if !MonthDue(s, m.month) then s
    else SettleStep(EventStep(AiStep(s, m), m), MonthSettlement(s, m), m.month)
  }

  /** A due month keeps the state valid, settles the player from the snapshot
    * (the event's own cash and satisfaction change is lost), appends exactly
    * one report, shows it and stops the clock exactly when the new cash is not
    * negative, and marks the month processed so that it cannot run again. */
  lemma MonthlyTickSpec(s: SessionState, m: MonthInputs)
    requires ValidState(s) && MonthInputsFit(s, m) && MonthDue(s, m.month)
    ensures var r := MonthlyTickState(s, m);
            var st := MonthSettlement(s, m);
            ValidState(r) && !MonthDue(r, m.month) &&
            r.player == ApplySettlement(s.player, st) &&
            r.player.financialHistory == s.player.financialHistory + [st.report] &&
            r.player.cash == s.player.cash + st.report.income as real - st.report.expenses.total as real &&
            (r.financialReport.Some? <==> st.newCash >= 0.0) &&
            (st.newCash >= 0.0 ==> r.speed <= 0 && r.speedBeforeReport == s.speed) &&
            |r.competitors| == |s.competitors|
  {
    var ev := MonthlyEvents(s.activeEvents, s.eventHistory, s.player, s.today, m.eventRoll, m.eventPick, m.eventCatalog);
    var st := MonthSettlement(s, m);
    if m.eventRoll {
      EventDeltaDiscarded(s.player, Activate(m.eventCatalog[m.eventPick % |m.eventCatalog|], s.today).event, st);
    }
    assert ApplySettlement(ev.player, st) == ApplySettlement(s.player, st);
    var onTime := NewOnTimePerformance(s.player.onTimePerformance, s.player.fleet, s.today, m.rolls.aging, m.rolls.recovery);
    assert 70.0 <= st.onTime <= 99.0;
    assert 0.0 <= st.satisfaction <= 100.0;
  }

  /** Every monthly step, due or not, keeps the state valid. */
  lemma MonthlyTickValid(s: SessionState, m: MonthInputs)
    requires ValidState(s) && MonthInputsFit(s, m)
    ensures ValidState(MonthlyTickState(s, m))
  {
    if MonthDue(s, m.month) {
      MonthlyTickSpec(s, m);
    }
  }

  /** Closing the month's report puts the clock back to the speed it had
    * before the report stopped it. */
  lemma ReportPauseRoundTrip(s: SessionState, m: MonthInputs)
    requires ValidState(s) && MonthInputsFit(s, m) && MonthDue(s, m.month)
    requires MonthSettlement(s, m).newCash >= 0.0
    ensures CloseReportState(MonthlyTickState(s, m)).speed == s.speed
    ensures CloseReportState(MonthlyTickState(s, m)).financialReport.None?
  {
  }

  /** One tick as the app commits it. The interval moves the date, and in the
    * render that follows both the daily effect and the monthly effect run,
    * reading the values of that render: the new date, but the player, the
    * modals and the events of the day before. So the monthly gate looks at
    * the notice on screen before the day, not at the research notice the
    * daily effect has just queued, and the settlement is computed from the
    * player before research completion and campaign expiry. The AI turn
    * reads that same player; the event step and the settlement's final
    * update land on the player after the daily step. */
  function DayTickState(s: SessionState, noticeId: string, m: MonthInputs): SessionState
    requires MonthInputsFit(s, m) && PricedRoutes(s.player.routes)
  {
    var d := AdvanceDayState(s, noticeId);
    var seen := s.(today := s.today + 1);
    if s.speed == 0 || s.state != Playing || !MonthDue(seen, m.month) then d
    else MonthAfterDay(d, seen, m)
  }

  /** The monthly effect of the render `seen` landing on the state `d` the
    * daily effect produced: the AI turn and the settlement read `seen`, the
    * event step and the final update apply to `d`. */
  function MonthAfterDay(d: SessionState, seen: SessionState, m: MonthInputs): SessionState
    requires MonthInputsFit(seen, m) && PricedRoutes(seen.player.routes)
  {
    var ai := AiStep(seen, m);
    SettleStep(EventStep(d.(competitors := ai.competitors, alliances := ai.alliances), m),
               MonthSettlement(seen, m), m.month)
  }

  /** Every tick, whether or not it reaches a due month, keeps the state valid. */
  lemma DayTickValid(s: SessionState, noticeId: string, m: MonthInputs)
    requires ValidState(s) && MonthInputsFit(s, m)
    ensures ValidState(DayTickState(s, noticeId, m))
  {
    if s.speed == 0 || s.state != Playing || !MonthDue(s.(today := s.today + 1), m.month) {
      DayTickWithoutMonth(s, noticeId, m);
    } else {
      DayTickSpec(s, noticeId, m);
    }
  }

  /** A tick that does not reach a due month is the day alone. */
  lemma DayTickWithoutMonth(s: SessionState, noticeId: string, m: MonthInputs)
    requires ValidState(s) && MonthInputsFit(s, m)
    requires s.speed == 0 || s.state != Playing || !MonthDue(s.(today := s.today + 1), m.month)
    ensures DayTickState(s, noticeId, m) == AdvanceDayState(s, noticeId)
    ensures ValidState(DayTickState(s, noticeId, m))
  {
    AdvanceDayKeepsValid(s, noticeId);
  }

  /** A running tick that reaches a due month is the day followed by the
    * monthly effect of the render before it. */
  lemma DayTickWithMonth(s: SessionState, noticeId: string, m: MonthInputs)
    requires MonthInputsFit(s, m) && PricedRoutes(s.player.routes)
    requires s.speed != 0 && s.state == Playing && MonthDue(s.(today := s.today + 1), m.month)
    ensures DayTickState(s, noticeId, m) == MonthAfterDay(AdvanceDayState(s, noticeId), s.(today := s.today + 1), m)
    ensures AdvanceDayState(s, noticeId).today == s.today + 1
  {
  }

  /** The monthly effect landing on the state after the day: the player after
    * the day with the settlement of `seen` applied, the report shown and the
    * clock stopped exactly when the new cash is not negative, and the month
    * marked processed. */
  lemma MonthAfterDaySpec(d: SessionState, seen: SessionState, m: MonthInputs)
    requires MonthInputsFit(seen, m) && PricedRoutes(seen.player.routes)
    requires |d.eventHistory| <= EventHistoryLimit && d.financialReport.None?
    ensures var r := MonthAfterDay(d, seen, m);
            var st := MonthSettlement(seen, m);
            r.player == ApplySettlement(d.player, st) &&
            r.today == d.today && r.lastProcessedMonth == m.month &&
            |r.eventHistory| <= EventHistoryLimit && |r.competitors| == |seen.competitors| &&
            (r.financialReport.Some? <==> st.newCash >= 0.0) &&
            (st.newCash >= 0.0 ==> r.speed <= 0 && r.speedBeforeReport == d.speed)
  {
    var ai := AiStep(seen, m);
    var e := d.(competitors := ai.competitors, alliances := ai.alliances);
    var ev := MonthlyEvents(e.activeEvents, e.eventHistory, d.player, d.today, m.eventRoll, m.eventPick, m.eventCatalog);
    var st := MonthSettlement(seen, m);
    if m.eventRoll {
      EventDeltaDiscarded(d.player, Activate(m.eventCatalog[m.eventPick % |m.eventCatalog|], d.today).event, st);
    }
    assert ApplySettlement(ev.player, st) == ApplySettlement(d.player, st);
    var x := EventStep(e, m);
    assert x.player == ev.player && x.eventHistory == ev.history && |x.competitors| == |seen.competitors|;
    assert MonthAfterDay(d, seen, m) == SettleStep(x, st, m.month);
  }

  /** The shape of a running tick that reaches a due month: the daily step's
    * player with the settlement of the player before the day applied, the
    * report shown and the clock stopped exactly when the new cash is not
    * negative, and the month marked processed. */
  lemma DayTickSettles(s: SessionState, noticeId: string, m: MonthInputs)
    requires ValidState(s) && MonthInputsFit(s, m)
    requires s.speed != 0 && s.state == Playing && MonthDue(s.(today := s.today + 1), m.month)
    ensures var r := DayTickState(s, noticeId, m);
            var st := MonthSettlement(s.(today := s.today + 1), m);
            r.player == ApplySettlement(DailyStep(s.player, s.today + 1, noticeId).player, st) &&
            r.today == s.today + 1 && r.lastProcessedMonth == m.month &&
            |r.eventHistory| <= EventHistoryLimit && |r.competitors| == |s.competitors| &&
            (r.financialReport.Some? <==> st.newCash >= 0.0) &&
            (st.newCash >= 0.0 ==> r.speed <= 0 && r.speedBeforeReport == s.speed)
  {
    var d := AdvanceDayState(s, noticeId);
    var seen := s.(today := s.today + 1);
    DayTickWithMonth(s, noticeId, m);
    assert d.player == DailyStep(s.player, s.today + 1, noticeId).player;
    assert d.eventHistory == s.eventHistory && d.financialReport.None? && d.speed == s.speed;
    MonthAfterDaySpec(d, seen, m);
  }

  /** A running tick that reaches a due month keeps the state valid and settles
    * the month from the player as it was before the day, with the new date:
    * cash, satisfaction and on-time performance are the settlement's (the
    * cash and satisfaction change of research completed that day, like the
    * event's, is lost), while the completion's modifiers, service quality and
    * completed list and the campaign expiry survive. One report is appended
    * and the month can no longer run. */
  lemma DayTickSpec(s: SessionState, noticeId: string, m: MonthInputs)
    requires ValidState(s) && MonthInputsFit(s, m)
    requires s.speed != 0 && s.state == Playing && MonthDue(s.(today := s.today + 1), m.month)
    ensures var r := DayTickState(s, noticeId, m);
            var day := DailyStep(s.player, s.today + 1, noticeId).player;
            var st := MonthSettlement(s.(today := s.today + 1), m);
            ValidState(r) && !MonthDue(r, m.month) &&
            r.player.cash == s.player.cash + st.report.income as real - st.report.expenses.total as real &&
            r.player.satisfaction == st.satisfaction && r.player.onTimePerformance == st.onTime &&
            r.player.financialHistory == s.player.financialHistory + [st.report] &&
            r.player.researchModifiers == day.researchModifiers && r.player.serviceQuality == day.serviceQuality &&
            r.player.completedResearch == day.completedResearch && r.player.activeResearch == day.activeResearch &&
            r.player.activeCampaigns == ExpireCampaigns(s.player.activeCampaigns, s.today + 1)
  {
    AdvanceDayKeepsValid(s, noticeId);
    DayTickSettles(s, noticeId, m);
    var today := s.today + 1;
    var day := DailyStep(s.player, today, noticeId).player;
    var st := MonthSettlement(s.(today := today), m);
    var r := DayTickState(s, noticeId, m);
    assert r.player == ApplySettlement(day, st);
    var onTime := NewOnTimePerformance(s.player.onTimePerformance, s.player.fleet, today, m.rolls.aging, m.rolls.recovery);
    assert 70.0 <= st.onTime <= 99.0;
    assert 0.0 <= st.satisfaction <= 100.0;
    assert st.newCash == s.player.cash + st.report.income as real - st.report.expenses.total as real;
  }

  // ---------------------------------------------------------------------
  // Speed and modals

  function SetSpeedState(s: SessionState, newSpeed: int): SessionState {
    s.(lastSpeed := if newSpeed > 0 then newSpeed else s.lastSpeed, speed := newSpeed)
  }

  function TogglePauseState(s: SessionState): SessionState {
    s.(speed := if s.speed > 0 then 0 else s.lastSpeed)
  }

  function CloseReportState(s: SessionState): SessionState {
    s.(financialReport := None, speed := s.speedBeforeReport)
  }

  /** Pausing and resuming comes back to the last chosen positive speed. */
  lemma PauseResume(s: SessionState, newSpeed: int)
    requires newSpeed > 0
    ensures var r := TogglePauseState(TogglePauseState(SetSpeedState(s, newSpeed)));
            r.speed == newSpeed && r.lastSpeed == newSpeed
    ensures TogglePauseState(SetSpeedState(s, newSpeed)).speed == 0
  {
  }

  // ---------------------------------------------------------------------
  // Commands keep the state valid

  // The player commands keep the state valid, given what the interface
  // guarantees: fresh ids, an idle aircraft of the fleet to assign, a
  // positive ticket price, and a route of at least 5/3 km (so that its
  // rounded fare is positive).

  lemma PurchaseKeepsValid(s: SessionState, m: AircraftModel, id: AircraftId)
    requires ValidState(s) && id !in AircraftIds(s.player.fleet)
    ensures ValidState(s.(player := PurchaseAircraft(s.player, m, id, s.today)))
  {
    PurchaseKeepsConsistent(s.player, m, id, s.today);
  }

  lemma SaleKeepsValid(s: SessionState, id: AircraftId, models: seq<AircraftModel>)
    requires ValidState(s)
    ensures ValidState(s.(player := SellAircraft(s.player, id, models, s.today)))
  {
    SaleKeepsConsistent(s.player, id, models, s.today);
  }

  lemma OpenRouteKeepsValid(s: SessionState, airports: seq<Airport>, origin: string, destination: string,
                            distance: real, routeId: string)
    requires ValidState(s) && routeId !in RouteIds(s.player.routes) && distance >= 5.0 / 3.0
    ensures ValidState(s.(player := CreateRoute(s.player, airports, origin, destination, distance, routeId)))
  {
    CreateRouteKeepsConsistent(s.player, airports, origin, destination, distance, routeId);
    RoundMonotone(0.5, StandardFare(distance));
    assert Round(0.5) == 1;
  }

  lemma AssignKeepsValid(s: SessionState, routeId: string, id: AircraftId)
    requires ValidState(s)
    requires AircraftIndex(s.player.fleet, id).Some? && s.player.fleet[AircraftIndex(s.player.fleet, id).value].status == Idle
    ensures ValidState(s.(player := AssignAircraft(s.player, routeId, id)))
  {
    AssignKeepsConsistent(s.player, routeId, id);
  }

  lemma UnassignKeepsValid(s: SessionState, routeId: string)
    requires ValidState(s)
    ensures ValidState(s.(player := UnassignAircraft(s.player, routeId)))
  {
    UnassignKeepsConsistent(s.player, routeId);
  }

  lemma PriceAndHubKeepValid(s: SessionState, routeId: string, price: real, hub: string)
    requires ValidState(s) && price > 0.0
    ensures ValidState(s.(player := UpdateTicketPrice(s.player, routeId, price)))
    ensures ValidState(s.(player := SetHub(s.player, hub)))
  {
    UpdateTicketPriceKeeps(s.player, routeId, price);
  }

  // ---------------------------------------------------------------------
  // The session object

  class GameSession {
    var player: Player
    var competitors: seq<Competitor>
    var alliances: seq<Alliance>
    var today: int
    var lastProcessedMonth: int
    var activeEvents: seq<ActiveEvent>
    var eventHistory: seq<ActiveEvent>
    var state: GameState
    var speed: int
    var lastSpeed: int
    var speedBeforeReport: int
    var financialReport: Option<FinancialReport>
    var eventToShow: Option<ActiveEvent>

    function State(): SessionState
      reads this
    {
      SessionState(player, competitors, alliances, today, lastProcessedMonth, activeEvents, eventHistory,
                   state, speed, lastSpeed, speedBeforeReport, financialReport, eventToShow)
    }

    ghost predicate Valid()
      reads this
    {
      ValidState(State())
    }

    /** The app as it stands after handleGameStart. */
    constructor (companyName: string, aiAircraftIds: seq<AircraftId>, startDay: int, startMonth: int)
      requires |aiAircraftIds| == 8
      ensures State() == NewGame(companyName, aiAircraftIds, startDay, startMonth)
      ensures Valid()
    {
      player := NewPlayer(companyName);
      competitors := StartingCompetitors(aiAircraftIds, startDay);
      alliances := [];
      today := startDay;
      lastProcessedMonth := startMonth;
      activeEvents := [];
      eventHistory := [];
      state := Playing;
      speed := 0;
      lastSpeed := 1;
      speedBeforeReport := 0;
      financialReport := None;
      eventToShow := None;
      new;
      NewGameValid(companyName, aiAircraftIds, startDay, startMonth);
    }

    /** One tick of the clock as the app commits it: the date moves on, the
      * daily effect runs, and when the render finds the month due the
      * monthly effect runs too, reading the values that render saw. */
    method AdvanceDay(noticeId: string, m: MonthInputs)
      modifies this
      requires Valid() && MonthInputsFit(State(), m)
      ensures State() == DayTickState(old(State()), noticeId, m)
      ensures Valid()
    {
      var s := State();
      var seen := s.(today := s.today + 1);
      DayTickValid(s, noticeId, m);
      if s.speed != 0 && s.state == Playing && MonthDue(seen, m.month) {
        DayTickWithMonth(s, noticeId, m);
        RunDay(noticeId);
        SettleAfterDay(seen, m);
      } else {
        DayTickWithoutMonth(s, noticeId, m);
        RunDay(noticeId);
      }
    }

    /** The monthly effect of the render `seen` applied to the state after the
      * day: the AI turn and the settlement read `seen`. */
    method SettleAfterDay(seen: SessionState, m: MonthInputs)
      modifies this
      requires MonthInputsFit(seen, m) && PricedRoutes(seen.player.routes)
      ensures State() == MonthAfterDay(old(State()), seen, m)
    {
      ghost var d := State();
      ghost var ai := AiStep(seen, m);
      var next, newAlliance := RunAiTurn(seen.competitors, seen.player, m.models, m.airports, m.dist, m.days as real,
                                         seen.today, m.choices, m.allianceChoice);
      competitors := next;
      alliances := seen.alliances;
      if newAlliance.Some? {
        alliances := alliances + [newAlliance.value];
      }
      ghost var a := State();
      assert a == d.(competitors := ai.competitors, alliances := ai.alliances);
      RunEventStep(m);
      var st := Settle(seen.player, seen.competitors, seen.alliances, seen.activeEvents, m.models, m.airports,
                       seen.today, m.days, m.monthDay, m.rolls);
      assert st == MonthSettlement(seen, m);
      ApplyMonthSettlement(st, m.month);
      assert State() == SettleStep(EventStep(a, m), st, m.month);
    }

    /** The date moves on and the daily effect runs; a paused or finished
      * game does not move. */
    method RunDay(noticeId: string)
      modifies this
      ensures State() == AdvanceDayState(old(State()), noticeId)
    {
      if speed == 0 || state != Playing {
        return;
      }
      today := today + 1;
      var r := DailyStep(player, today, noticeId);
      player := r.player;
      if r.notice.Some? {
        eventToShow := r.notice;
      }
    }

    /** The game-over effect: negative cash while playing ends the game and
      * stops the clock. */
    method CheckGameOver()
      modifies this
      requires Valid()
      ensures State() == GameOverState(old(State()))
      ensures Valid()
      ensures state == GameOver <==> old(state) == GameOver || (old(player).cash < 0.0 && old(state) == Playing)
    {
      if player.cash < 0.0 && state == Playing {
        state := GameOver;
        if speed > 0 {
          speed := 0;
        }
      }
    }

    /** The monthly effect in a render that does not move the date (after a
      * report or a notice closes). The snapshot taken on entry is what the
      * AI turn and the settlement read. */
    method MonthlyTick(m: MonthInputs)
      modifies this
      requires Valid() && MonthInputsFit(State(), m)
      ensures State() == MonthlyTickState(old(State()), m)
      ensures Valid()
    {
      if !MonthDue(State(), m.month) {
        return;
      }
      ghost var s := State();
      MonthlyTickValid(s, m);
      var p0, comps0, alliances0, events0 := player, competitors, alliances, activeEvents;
      RunAiStep(m);
      RunEventStep(m);
      var st := Settle(p0, comps0, alliances0, events0, m.models, m.airports, today, m.days, m.monthDay, m.rolls);
      assert st == MonthSettlement(s, m);
      ApplyMonthSettlement(st, m.month);
    }

    method RunAiStep(m: MonthInputs)
      modifies this
      requires MonthInputsFit(State(), m)
      ensures State() == AiStep(old(State()), m)
    {
      var next, newAlliance := RunAiTurn(competitors, player, m.models, m.airports, m.dist, m.days as real, today,
                                         m.choices, m.allianceChoice);
      competitors := next;
      if newAlliance.Some? {
        alliances := alliances + [newAlliance.value];
      }
    }

    method RunEventStep(m: MonthInputs)
      modifies this
      requires |m.eventCatalog| > 0
      ensures State() == EventStep(old(State()), m)
    {
      var ev := MonthlyEvents(activeEvents, eventHistory, player, today, m.eventRoll, m.eventPick, m.eventCatalog);
      activeEvents := ev.events;
      eventHistory := ev.history;
      player := ev.player;
      if ev.shown.Some? {
        eventToShow := ev.shown;
      }
    }

    method ApplyMonthSettlement(st: Settlement, month: int)
      modifies this
      ensures State() == SettleStep(old(State()), st, month)
    {
      player := ApplySettlement(player, st);
      if st.newCash >= 0.0 {
        speedBeforeReport := speed;
        if speed > 0 {
          speed := 0;
        }
        financialReport := Some(st.report);
      }
      lastProcessedMonth := month;
    }

    method SetSpeed(newSpeed: int)
      modifies this
      requires Valid()
      ensures State() == SetSpeedState(old(State()), newSpeed)
      ensures Valid()
    {
      if newSpeed > 0 {
        lastSpeed := newSpeed;
      }
      speed := newSpeed;
    }

    method TogglePause()
      modifies this
      requires Valid()
      ensures State() == TogglePauseState(old(State()))
      ensures Valid()
    {
      speed := if speed > 0 then 0 else lastSpeed;
    }

    method CloseReport()
      modifies this
      requires Valid()
      ensures State() == CloseReportState(old(State()))
      ensures Valid()
    {
      financialReport := None;
      speed := speedBeforeReport;
    }

    method CloseEvent()
      modifies this
      requires Valid()
      ensures State() == old(State()).(eventToShow := None)
      ensures Valid()
    {
      eventToShow := None;
    }

    // -------------------------------------------------------------------
    // Commands

    method Purchase(m: AircraftModel, newId: AircraftId)
      modifies this
      requires Valid() && newId !in AircraftIds(player.fleet)
      ensures State() == old(State()).(player := PurchaseAircraft(old(player), m, newId, old(today)))
      ensures Valid()
    {
      PurchaseKeepsValid(State(), m, newId);
      if player.cash < m.price as real {
        return;
      }
      player := player.(cash := player.cash - m.price as real,
                        fleet := player.fleet + [IdleAircraft(newId, m.id, today)]);
    }

    method Sell(id: AircraftId, models: seq<AircraftModel>)
      modifies this
      requires Valid()
      ensures State() == old(State()).(player := SellAircraft(old(player), id, models, old(today)))
      ensures Valid()
    {
      SaleKeepsValid(State(), id, models);
      player := SellAircraft(player, id, models, today);
    }

    method OpenRoute(airports: seq<Airport>, origin: string, destination: string, distance: real, routeId: string)
      modifies this
      requires Valid() && routeId !in RouteIds(player.routes) && distance >= 5.0 / 3.0
      ensures State() == old(State()).(player := CreateRoute(old(player), airports, origin, destination, distance, routeId))
      ensures Valid()
    {
      OpenRouteKeepsValid(State(), airports, origin, destination, distance, routeId);
      player := CreateRoute(player, airports, origin, destination, distance, routeId);
    }

    /** Copies of the fleet and the routes are updated at indices, as the
      * handler does. */
    method Assign(routeId: string, aircraftId: AircraftId)
      modifies this
      requires Valid()
      requires AircraftIndex(player.fleet, aircraftId).Some?
      requires player.fleet[AircraftIndex(player.fleet, aircraftId).value].status == Idle
      ensures State() == old(State()).(player := AssignAircraft(old(player), routeId, aircraftId))
      ensures Valid()
    {
      AssignKeepsValid(State(), routeId, aircraftId);
      var fleet := player.fleet;
      var routes := player.routes;
      var ri := RouteIndex(routes, routeId);
      if ri.None? {
        return;
      }
      var route := routes[ri.value];
      if route.aircraftId.Some? {
        var oi := AircraftIndex(fleet, route.aircraftId.value);
        if oi.Some? {
          fleet := fleet[oi.value := Grounded(fleet[oi.value])];
        }
      }
      assert fleet == GroundRouteAircraft(player.fleet, route);
      var ni := AircraftIndex(fleet, aircraftId);
      if ni.Some? {
        fleet := fleet[ni.value := PutInService(fleet[ni.value], routeId)];
      }
      routes := routes[ri.value := route.(aircraftId := Some(aircraftId))];
      player := player.(fleet := fleet, routes := routes);
    }

    method Unassign(routeId: string)
      modifies this
      requires Valid()
      ensures State() == old(State()).(player := UnassignAircraft(old(player), routeId))
      ensures Valid()
    {
      UnassignKeepsValid(State(), routeId);
      var fleet := player.fleet;
      var routes := player.routes;
      var ri := RouteIndex(routes, routeId);
      if ri.None? {
        return;
      }
      var route := routes[ri.value];
      if route.aircraftId.None? {
        return;
      }
      var oi := AircraftIndex(fleet, route.aircraftId.value);
      if oi.Some? {
        fleet := fleet[oi.value := Grounded(fleet[oi.value])];
      }
      routes := routes[ri.value := route.(aircraftId := None)];
      player := player.(fleet := fleet, routes := routes);
    }

    method ChangeTicketPrice(routeId: string, price: real)
      modifies this
      requires Valid() && price > 0.0
      ensures State() == old(State()).(player := UpdateTicketPrice(old(player), routeId, price))
      ensures Valid()
    {
      PriceAndHubKeepValid(State(), routeId, price, "");
      player := UpdateTicketPrice(player, routeId, price);
    }

    method ChooseHub(airportId: string)
      modifies this
      requires Valid()
      ensures State() == old(State()).(player := SetHub(old(player), airportId))
      ensures Valid()
    {
      PriceAndHubKeepValid(State(), "", 1.0, airportId);
      player := SetHub(player, airportId);
    }

    method BeginResearch(project: ResearchProject)
      modifies this
      requires Valid()
      ensures State() == old(State()).(player := StartResearch(old(player), project, old(today)))
      ensures Valid()
    {
      player := StartResearch(player, project, today);
    }

    method BeginCampaign(campaign: MarketingCampaign)
      modifies this
      requires Valid()
      ensures State() == old(State()).(player := StartCampaign(old(player), campaign, old(today)))
      ensures Valid()
    {
      player := StartCampaign(player, campaign, today);
    }

    method CreateAlliance(name: string, allianceId: string)
      modifies this
      requires Valid()
      ensures var w := FormAlliance(AllianceWorld(old(player), old(alliances), old(competitors)), name, allianceId);
              State() == old(State()).(player := w.player, alliances := w.alliances, competitors := w.competitors)
      ensures Valid()
    {
      var w := FormAlliance(AllianceWorld(player, alliances, competitors), name, allianceId);
      player, alliances, competitors := w.player, w.alliances, w.competitors;
    }

    method InviteCompetitor(competitorId: string)
      modifies this
      requires Valid()
      ensures var w := Invite(AllianceWorld(old(player), old(alliances), old(competitors)), competitorId);
              State() == old(State()).(player := w.player, alliances := w.alliances, competitors := w.competitors)
      ensures Valid()
    {
      var w := Invite(AllianceWorld(player, alliances, competitors), competitorId);
      player, alliances, competitors := w.player, w.alliances, w.competitors;
    }

    method LeaveAlliance()
      modifies this
      requires Valid()
      ensures var w := Leave(AllianceWorld(old(player), old(alliances), old(competitors)));
              State() == old(State()).(player := w.player, alliances := w.alliances, competitors := w.competitors)
      ensures Valid()
    {
      var w := Leave(AllianceWorld(player, alliances, competitors));
      player, alliances, competitors := w.player, w.alliances, w.competitors;
    }
  }
}
