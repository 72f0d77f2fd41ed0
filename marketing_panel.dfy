/** The marketing screen (components/Marketing.tsx): the campaigns offered,
  * the start button and its label, the effect badge, and the progress of the
  * running campaign. */
module MarketingPanel {
  import opened Common
  import opened Model
  import Commands
  import Lifecycle

  predicate Running(active: seq<ActiveCampaign>, c: MarketingCampaign) {
    exists ac :: ac in active && ac.campaign.id == c.id
  }

  /** The catalog campaigns that are not running, in catalog order. */
  function AvailableCampaigns(catalog: seq<MarketingCampaign>, active: seq<ActiveCampaign>): (r: seq<MarketingCampaign>)
    ensures forall c :: c in r <==> c in catalog && !Running(active, c)
  {
    Filter(catalog, (c: MarketingCampaign) => !Running(active, c))
  }

  // ---------------------------------------------------------------------
  // The card's button

  datatype ButtonLabel = StartCampaign | AnotherCampaignRunning | InsufficientFunds

  /** Disabled for a running campaign, when the cash does not cover the cost,
    * or while another campaign runs. */
  function ButtonDisabled(isActive: bool, cash: real, cost: real, anotherActive: bool): (r: bool)
    ensures !r <==> !isActive && cash >= cost && !anotherActive
  {
    isActive || !(cash >= cost) || (anotherActive && !isActive)
  }

  /** Another running campaign takes priority over missing funds. */
  function Label(isActive: bool, cash: real, cost: real, anotherActive: bool): (r: ButtonLabel)
    ensures anotherActive && !isActive ==> r == AnotherCampaignRunning
    ensures !(anotherActive && !isActive) && cash < cost ==> r == InsufficientFunds
    ensures r == StartCampaign <==> !(anotherActive && !isActive) && cash >= cost
  {
    if anotherActive && !isActive then AnotherCampaignRunning
    else if !(cash >= cost) then InsufficientFunds
    else StartCampaign
  }

  /** The button is only drawn on cards of campaigns not running; there the
    * label invites the player to start exactly when the button is enabled,
    * and that is exactly when no campaign runs and the cash covers the
    * cost. */
  lemma OfferedButton(p: Player, catalog: seq<MarketingCampaign>, c: MarketingCampaign)
    requires c in AvailableCampaigns(catalog, p.activeCampaigns)
    ensures var another := |p.activeCampaigns| > 0;
            (Label(false, p.cash, c.cost, another) == StartCampaign <==> !ButtonDisabled(false, p.cash, c.cost, another)) &&
            (!ButtonDisabled(false, p.cash, c.cost, another) <==> p.cash >= c.cost && |p.activeCampaigns| == 0)
  {
  }

  /** Clicking an enabled button starts the campaign: the command's own
    * checks pass, the cost is paid and it becomes the only running campaign,
    * ending `durationDays` from today. */
  lemma EnabledButtonStarts(p: Player, c: MarketingCampaign, today: int)
    requires !ButtonDisabled(false, p.cash, c.cost, |p.activeCampaigns| > 0)
    ensures var q := Commands.StartCampaign(p, c, today);
            q.cash == p.cash - c.cost && q.activeCampaigns == [ActiveCampaign(c, today, today + c.durationDays)]
  {
  }

  // ---------------------------------------------------------------------
  // The effect badge

  datatype EffectText =
    | BrandAwarenessText(amount: real)
    | RegionalDemandText(region: string, percent: real)
    | SpecialEffectText

  /** A non-zero brand-awareness effect is described first; otherwise a
    * regional modifier is described by its region and its percentage gain;
    * otherwise a generic text. */
  function EffectDescription(e: CampaignEffect): (r: EffectText)
    ensures e.brandAwareness.Some? && e.brandAwareness.value != 0.0 ==> r == BrandAwarenessText(e.brandAwareness.value)
    ensures r.RegionalDemandText? ==>
              e.regionalDemandModifier.Some? && (e.brandAwareness.None? || e.brandAwareness.value == 0.0) &&
              r.region == e.regionalDemandModifier.value.region &&
              (r.percent > 0.0 <==> e.regionalDemandModifier.value.multiplier > 1.0)
    ensures r == SpecialEffectText <==>
              (e.brandAwareness.None? || e.brandAwareness.value == 0.0) && e.regionalDemandModifier.None?
  {
    if e.brandAwareness.Some? && e.brandAwareness.value != 0.0 then BrandAwarenessText(e.brandAwareness.value)
    else if e.regionalDemandModifier.Some? then
      RegionalDemandText(e.regionalDemandModifier.value.region, (e.regionalDemandModifier.value.multiplier - 1.0) * 100.0)
    else SpecialEffectText
  }

  // ---------------------------------------------------------------------
  // Progress of the running campaign

  function Progress(ac: ActiveCampaign, today: int): (r: real)
    requires ac.campaign.durationDays > 0
    ensures r <= 100.0
    ensures today >= ac.startDay ==> r >= 0.0
  {
    ElapsedPercent(ac.startDay, ac.campaign.durationDays, today)
  }

  /** Days to the expiry date, rounded up, never negative. */
  function RemainingDays(ac: ActiveCampaign, today: int): (r: int)
    ensures r >= 0
  {
    DaysLeft((ac.expiryDay - today) as real)
  }

  /** For a campaign started by the command (expiring `durationDays` after
    * its start), the bar is full exactly when no day remains, and that is
    * exactly when the daily expiry removes it. */
  lemma ProgressMatchesExpiry(ac: ActiveCampaign, today: int)
    requires ac.campaign.durationDays > 0 && ac.expiryDay == ac.startDay + ac.campaign.durationDays
    ensures Progress(ac, today) == 100.0 <==> RemainingDays(ac, today) == 0
    ensures RemainingDays(ac, today) == 0 <==> !Lifecycle.CampaignRunning(ac, today)
  {
    FullWhenNoDaysLeft(ac.startDay, ac.campaign.durationDays, today);
  }
}
