/** Time-driven changes other than the settlement (App.tsx): the daily
  * research completion and campaign expiry, the monthly event expiry and
  * trigger, and the game-over transition. */
module Lifecycle {
  import opened Common
  import opened Model
  import opened Settlement

  // ---------------------------------------------------------------------
  // Research

  /** The research end date has been reached. */
  predicate ResearchDue(p: Player, today: int) {
    p.activeResearch.Some? &&
    today >= p.activeResearch.value.startDay + p.activeResearch.value.project.durationDays
  }

  /** A research factor multiplies the value; an absent or zero factor leaves it alone. */
  function Scale(x: real, f: Option<real>): (r: real)
    ensures r == x * OrOne(f)
  {
    if f.Some? && f.value != 0.0 then x * f.value else x
  }

  /** The completion update: factors multiply into the research modifiers,
    * cash moves by the cash effect, satisfaction and service quality move by
    * theirs and are clamped to [0, 100], the project is recorded as completed
    * and no research is active any more. */
  function CompleteResearch(p: Player): (q: Player)
    requires p.activeResearch.Some?
    ensures var e := p.activeResearch.value.project.effects;
            q == p.(cash := q.cash, satisfaction := q.satisfaction, serviceQuality := q.serviceQuality,
                    activeResearch := None, researchModifiers := q.researchModifiers,
                    completedResearch := p.completedResearch + [p.activeResearch.value.project.id]) &&
            q.cash == p.cash + OrZero(e.cash) &&
            q.satisfaction == Clamp(p.satisfaction + OrZero(e.satisfaction), 0.0, 100.0) &&
            q.serviceQuality == Clamp(p.serviceQuality + OrZero(e.serviceQuality), 0.0, 100.0) &&
            0.0 <= q.satisfaction <= 100.0 && 0.0 <= q.serviceQuality <= 100.0 &&
            q.researchModifiers.fuelEfficiency == p.researchModifiers.fuelEfficiency * OrOne(e.fuelEfficiencyModifier) &&
            q.researchModifiers.maintenance == p.researchModifiers.maintenance * OrOne(e.maintenanceModifier) &&
            q.researchModifiers.baseDemand == p.researchModifiers.baseDemand * OrOne(e.baseDemandModifier)
  {
    var project := p.activeResearch.value.project;
    var e := project.effects;
    var m := p.researchModifiers;
    p.(cash := p.cash + OrZero(e.cash),
       satisfaction := Clamp(p.satisfaction + OrZero(e.satisfaction), 0.0, 100.0),
       serviceQuality := Clamp(p.serviceQuality + OrZero(e.serviceQuality), 0.0, 100.0),
       activeResearch := None,
       completedResearch := p.completedResearch + [project.id],
       researchModifiers := ResearchModifiers(Scale(m.fuelEfficiency, e.fuelEfficiencyModifier),
                                              Scale(m.maintenance, e.maintenanceModifier),
                                              Scale(m.baseDemand, e.baseDemandModifier)))
  }

  // ---------------------------------------------------------------------
  // Campaigns and events: expiry

  predicate CampaignRunning(c: ActiveCampaign, today: int) { today < c.expiryDay }

  function ExpireCampaigns(campaigns: seq<ActiveCampaign>, today: int): seq<ActiveCampaign> {
    Filter(campaigns, (c: ActiveCampaign) => CampaignRunning(c, today))
  }

  predicate EventRunning(e: ActiveEvent, today: int) { today < e.expiryDay }

  function ExpireEvents(events: seq<ActiveEvent>, today: int): seq<ActiveEvent> {
    Filter(events, (e: ActiveEvent) => EventRunning(e, today))
  }

  /** Filtering twice by the same test is filtering once. */
  lemma {:induction false} FilterIdempotent<T>(s: seq<T>, p: T -> bool)
    ensures Filter(Filter(s, p), p) == Filter(s, p)
  {
    if |s| > 0 {
      FilterIdempotent(s[1..], p);
      if p(s[0]) {
        var rest := Filter(s[1..], p);
        var f := [s[0]] + rest;
        assert Filter(s, p) == f;
        assert f[0] == s[0] && f[1..] == rest;
        assert Filter(f, p) == [s[0]] + Filter(rest, p);
      } else {
        assert Filter(s, p) == Filter(s[1..], p);
      }
    }
  }

  /** Expiry keeps exactly the campaigns (and events) that run past today, in
    * their order, and a second expiry on the same day changes nothing. */
  lemma ExpiryKeepsRunning(campaigns: seq<ActiveCampaign>, events: seq<ActiveEvent>, today: int)
    ensures forall c :: c in ExpireCampaigns(campaigns, today) <==> c in campaigns && today < c.expiryDay
    ensures forall e :: e in ExpireEvents(events, today) <==> e in events && today < e.expiryDay
    ensures ExpireCampaigns(ExpireCampaigns(campaigns, today), today) == ExpireCampaigns(campaigns, today)
    ensures ExpireEvents(ExpireEvents(events, today), today) == ExpireEvents(events, today)
  {
    FilterIdempotent(campaigns, (c: ActiveCampaign) => CampaignRunning(c, today));
    FilterIdempotent(events, (e: ActiveEvent) => EventRunning(e, today));
  }

  // ---------------------------------------------------------------------
  // The daily step

  /** The event shown when a project completes: no duration, no effects. */
  function CompletionNotice(id: string, today: int): ActiveEvent {
    ActiveEvent(GameEvent(id, 0, EventEffect(None, None, None, None, None, [])), today, today)
  }

  datatype DailyOutcome = DailyOutcome(player: Player, notice: Option<ActiveEvent>)

  /** The daily effect: complete the research whose end date has come, then
    * drop the campaigns that have expired. Nothing else about the player
    * changes, and with nothing due only the expiry applies. */
  function DailyStep(p: Player, today: int, noticeId: string): (r: DailyOutcome)
    ensures r.player == (if ResearchDue(p, today) then CompleteResearch(p) else p)
                          .(activeCampaigns := ExpireCampaigns(p.activeCampaigns, today))
    ensures r.notice.Some? <==> ResearchDue(p, today)
    ensures r.player.activeCampaigns == ExpireCampaigns(p.activeCampaigns, today)
    ensures !ResearchDue(r.player, today)
  {
    var p1 := if ResearchDue(p, today) then CompleteResearch(p) else p;
    var p2 := if |p1.activeCampaigns| > 0 then p1.(activeCampaigns := ExpireCampaigns(p1.activeCampaigns, today)) else p1;
    DailyOutcome(p2, if ResearchDue(p, today) then Some(CompletionNotice(noticeId, today)) else None)
  }

  /** The effect runs again whenever the player changes; the second run on the
    * same day changes nothing and shows nothing. */
  lemma DailyStepSettles(p: Player, today: int, id1: string, id2: string)
    ensures var r := DailyStep(p, today, id1);
            DailyStep(r.player, today, id2) == DailyOutcome(r.player, None)
  {
    var r := DailyStep(p, today, id1);
    ExpiryKeepsRunning(p.activeCampaigns, [], today);
  }

  // ---------------------------------------------------------------------
  // The monthly event step

  const EventHistoryLimit: nat := 20

  function Activate(ev: GameEvent, today: int): ActiveEvent {
    ActiveEvent(ev, today, today + ev.durationDays)
  }

  /** The new event in front of the history, which keeps its 20 newest entries. */
  function PushHistory(history: seq<ActiveEvent>, e: ActiveEvent): (r: seq<ActiveEvent>)
    ensures |r| == Min(EventHistoryLimit as real, (|history| + 1) as real) as int
    ensures |r| <= EventHistoryLimit && r[0] == e
    ensures r[1..] == history[..|r| - 1]
  {
    var all := [e] + history;
    if |all| <= EventHistoryLimit then all else all[..EventHistoryLimit]
  }

  /** The event's immediate effect on the player: cash moves by its cash
    * effect and satisfaction by its satisfaction effect, clamped to [0, 100]. */
  function ApplyEventDelta(p: Player, ev: GameEvent): (q: Player)
    ensures q == p.(cash := p.cash + OrZero(ev.effects.cash), satisfaction := q.satisfaction)
    ensures q.satisfaction == Clamp(p.satisfaction + OrZero(ev.effects.satisfaction), 0.0, 100.0)
    ensures 0.0 <= q.satisfaction <= 100.0
  {
    p.(cash := p.cash + OrZero(ev.effects.cash),
       satisfaction := Clamp(p.satisfaction + OrZero(ev.effects.satisfaction), 0.0, 100.0))
  }

  datatype EventOutcome = EventOutcome(
    events: seq<ActiveEvent>, history: seq<ActiveEvent>, player: Player, shown: Option<ActiveEvent>)

  /** Expire the events, then on a 30% draw activate the picked catalog event:
    * apply its delta, keep it active only if it lasts, put it at the head of
    * the history and show it. */
  function MonthlyEvents(events: seq<ActiveEvent>, history: seq<ActiveEvent>, p: Player, today: int,
                         roll: bool, pick: nat, catalog: seq<GameEvent>): (r: EventOutcome)
    requires |catalog| > 0
    ensures !roll ==> r == EventOutcome(ExpireEvents(events, today), history, p, None)
    ensures roll ==>
      var e := Activate(catalog[pick % |catalog|], today);
      r.shown == Some(e) && r.player == ApplyEventDelta(p, e.event) &&
      r.history == PushHistory(history, e) &&
      r.events == ExpireEvents(events, today) + (if e.event.durationDays > 0 then [e] else [])
  {
    var kept := ExpireEvents(events, today);
    if !roll then EventOutcome(kept, history, p, None)
    else
      var e := Activate(catalog[pick % |catalog|], today);
      EventOutcome(if e.event.durationDays > 0 then kept + [e] else kept,
                   PushHistory(history, e), ApplyEventDelta(p, e.event), Some(e))
  }

  /** The settlement's final update overwrites cash and satisfaction, so the
    * same month's event delta is lost: settling the player with or without it
    * gives the same player. */
  lemma EventDeltaDiscarded(p: Player, ev: GameEvent, s: Settlement)
    ensures ApplySettlement(ApplyEventDelta(p, ev), s) == ApplySettlement(p, s)
  {
  }

  /** When research completes on the day a month is settled, the settlement's
    * final update lands on the completed player: the completion's modifiers,
    * service quality and completed list survive, but its cash and
    * satisfaction change is lost. */
  lemma ResearchDeltaDiscarded(p: Player, s: Settlement)
    requires p.activeResearch.Some?
    ensures var q := CompleteResearch(p);
            ApplySettlement(q, s) == ApplySettlement(p, s).(serviceQuality := q.serviceQuality,
                                                           activeResearch := None,
                                                           researchModifiers := q.researchModifiers,
                                                           completedResearch := q.completedResearch)
  {
  }

  // ---------------------------------------------------------------------
  // Game over

  datatype GameState = Setup | Playing | GameOver

  /** A playing game whose cash is negative ends, and a running clock stops. */
  function GameOverCheck(cash: real, state: GameState, speed: int): (r: (GameState, int))
    ensures r.0 == GameOver <==> state == GameOver || (cash < 0.0 && state == Playing)
    ensures r.0 != state ==> r.1 == (if speed > 0 then 0 else speed)
    ensures r.0 == state ==> r == (state, speed)
  {
    if cash < 0.0 && state == Playing then (GameOver, if speed > 0 then 0 else speed) else (state, speed)
  }
}
