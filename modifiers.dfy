/** Aggregation of the active events and marketing campaigns into the
  * multipliers and per-key demand maps the monthly settlement reads
  * (App.tsx closedAirports memo and the "Aggregate Effects" stage). */
module Modifiers {
  import opened Common
  import opened Model

  const BaseFuelPrice: real := 1.2

  // ---------------------------------------------------------------------
  // Income, expense and fuel-price multipliers (Array.prototype.reduce)

  datatype Kind = IncomeKind | ExpenseKind | FuelPriceKind

  /** The event's multiplier of this kind, 1 when it is absent or zero. */
  function EventFactor(e: ActiveEvent, k: Kind): real {
    match k
    case IncomeKind => OrOne(e.event.effects.incomeModifier)
    case ExpenseKind => OrOne(e.event.effects.expenseModifier)
    case FuelPriceKind => OrOne(e.event.effects.fuelPriceModifier)
  }

  /** The reduce over all events, starting from 1: a left fold of the factors. */
  function Modifier(events: seq<ActiveEvent>, k: Kind): real {
    ModifierUpTo(events, |events|, k)
  }

  /** The fold after its first `n` steps. */
  function ModifierUpTo(events: seq<ActiveEvent>, n: nat, k: Kind): real
    requires n <= |events|
  {
    if n == 0 then 1.0 else Times(ModifierUpTo(events, n - 1, k), EventFactor(events[n - 1], k))
  }

  /** One step of the fold. */
  function Times(x: real, y: real): real {
    x * y
  }

  /** The multiplier of a concatenation is the product of the multipliers:
    * each event contributes its own factor, independently of the others. */
  lemma ModifierAppend(a: seq<ActiveEvent>, b: seq<ActiveEvent>, k: Kind)
    ensures Modifier(a + b, k) == Modifier(a, k) * Modifier(b, k)
  {
    ModifierUpToAppend(a, b, |b|, k);
  }

  lemma {:induction false} ModifierUpToAppend(a: seq<ActiveEvent>, b: seq<ActiveEvent>, j: nat, k: Kind)
    requires j <= |b|
    ensures ModifierUpTo(a + b, |a| + j, k) == Times(Modifier(a, k), ModifierUpTo(b, j, k))
  {
    if j == 0 {
      ModifierPrefix(a, b, |a|, k);
    } else {
      var f := EventFactor(b[j - 1], k);
      assert (a + b)[|a| + j - 1] == b[j - 1];
      var x := ModifierUpTo(a + b, |a| + (j - 1), k);
      var m := Modifier(a, k);
      var u := ModifierUpTo(b, j - 1, k);
      assert ModifierUpTo(a + b, |a| + j, k) == Times(x, f);
      ModifierUpToAppend(a, b, j - 1, k);
      TimesAssociative(m, u, f);
      assert ModifierUpTo(b, j, k) == Times(u, f);
    }
  }

  lemma TimesAssociative(x: real, y: real, z: real)
    ensures Times(Times(x, y), z) == Times(x, Times(y, z))
  {
  }

  /** Appending events does not change the fold over the first ones. */
  lemma {:induction false} ModifierPrefix(a: seq<ActiveEvent>, b: seq<ActiveEvent>, n: nat, k: Kind)
    requires n <= |a|
    ensures ModifierUpTo(a + b, n, k) == ModifierUpTo(a, n, k)
  {
    if n > 0 {
      ModifierPrefix(a, b, n - 1, k);
      assert (a + b)[n - 1] == a[n - 1];
    }
  }

  /** Events that carry no multiplier of this kind (absent or 0) leave it at 1;
    * in particular no active events give 1. */
  lemma ModifierNeutral(events: seq<ActiveEvent>, k: Kind)
    requires forall i :: 0 <= i < |events| ==> EventFactor(events[i], k) == 1.0
    ensures Modifier(events, k) == 1.0
  {
    ModifierUpToNeutral(events, |events|, k);
  }

  lemma {:induction false} ModifierUpToNeutral(events: seq<ActiveEvent>, n: nat, k: Kind)
    requires n <= |events|
    requires forall i :: 0 <= i < |events| ==> EventFactor(events[i], k) == 1.0
    ensures ModifierUpTo(events, n, k) == 1.0
  {
    if n > 0 {
      ModifierUpToNeutral(events, n - 1, k);
    }
  }

  /** A single active event yields exactly its own multiplier. */
  lemma SingleEventModifier(e: ActiveEvent, k: Kind)
    ensures Modifier([e], k) == EventFactor(e, k)
  {
    assert ModifierUpTo([e], 0, k) == 1.0;
    assert [e][0] == e;
  }

  /** Positive multipliers give a positive product. */
  lemma ModifierPositive(events: seq<ActiveEvent>, k: Kind)
    requires forall i :: 0 <= i < |events| ==> EventFactor(events[i], k) > 0.0
    ensures Modifier(events, k) > 0.0
  {
    ModifierUpToPositive(events, |events|, k);
  }

  lemma {:induction false} ModifierUpToPositive(events: seq<ActiveEvent>, n: nat, k: Kind)
    requires n <= |events|
    requires forall i :: 0 <= i < |events| ==> EventFactor(events[i], k) > 0.0
    ensures ModifierUpTo(events, n, k) > 0.0
  {
    if n > 0 {
      ModifierUpToPositive(events, n - 1, k);
      assert Times(ModifierUpTo(events, n - 1, k), EventFactor(events[n - 1], k)) > 0.0;
    }
  }

  /** BASE_FUEL_PRICE * fuelPriceModifier * researchModifiers.fuelEfficiency */
  function CurrentFuelPrice(events: seq<ActiveEvent>, research: ResearchModifiers): real {
    BaseFuelPrice * Modifier(events, FuelPriceKind) * research.fuelEfficiency
  }

  /** With no fuel-price events the price is the base price scaled by research only,
    * and a single +50% fuel event with no research makes it 1.8. */
  lemma FuelPriceExamples(events: seq<ActiveEvent>, research: ResearchModifiers, e: ActiveEvent)
    ensures (forall i :: 0 <= i < |events| ==> EventFactor(events[i], FuelPriceKind) == 1.0) ==>
              CurrentFuelPrice(events, research) == 1.2 * research.fuelEfficiency
    ensures e.event.effects.fuelPriceModifier == Some(1.5) && research.fuelEfficiency == 1.0 ==>
              CurrentFuelPrice([e], research) == 1.8
  {
    if forall i :: 0 <= i < |events| ==> EventFactor(events[i], FuelPriceKind) == 1.0 {
      ModifierNeutral(events, FuelPriceKind);
    }
    SingleEventModifier(e, FuelPriceKind);
  }

  // ---------------------------------------------------------------------
  // Closed airports (a Set filled by nested forEach loops)

  /** Every airport named by an `isClosed` effect of an active event. */
  function ClosedAirports(events: seq<ActiveEvent>): set<string> {
    set i, j | 0 <= i < |events| && 0 <= j < |events[i].event.effects.airportEffects|
                 && events[i].event.effects.airportEffects[j].isClosed
      :: events[i].event.effects.airportEffects[j].airportId
  }

  method CollectClosedAirports(events: seq<ActiveEvent>) returns (closed: set<string>)
    ensures closed == ClosedAirports(events)
  {
    closed := {};
    var i := 0;
    while i < |events|
      invariant 0 <= i <= |events|
      invariant closed == ClosedAirports(events[..i])
    {
      var effects := events[i].event.effects.airportEffects;
      var j := 0;
      while j < |effects|
        invariant 0 <= j <= |effects|
        invariant closed == ClosedAirports(events[..i]) + ClosedIn(effects[..j])
      {
        if effects[j].isClosed {
          closed := closed + {effects[j].airportId};
        }
        assert effects[..j + 1] == effects[..j] + [effects[j]];
        j := j + 1;
      }
      assert effects[..j] == effects;
      ClosedAirportsStep(events, i);
      i := i + 1;
    }
    assert events[..i] == events;
  }

  function ClosedIn(effects: seq<AirportEffect>): set<string> {
    set j | 0 <= j < |effects| && effects[j].isClosed :: effects[j].airportId
  }

  lemma ClosedAirportsStep(events: seq<ActiveEvent>, i: nat)
    requires i < |events|
    ensures ClosedAirports(events[..i + 1])
         == ClosedAirports(events[..i]) + ClosedIn(events[i].event.effects.airportEffects)
  {
    var pre, next := events[..i], events[..i + 1];
    forall a | a in ClosedAirports(next)
      ensures a in ClosedAirports(pre) + ClosedIn(events[i].event.effects.airportEffects)
    {
      var x, y :| 0 <= x < |next| && 0 <= y < |next[x].event.effects.airportEffects|
                  && next[x].event.effects.airportEffects[y].isClosed
                  && next[x].event.effects.airportEffects[y].airportId == a;
      if x < i {
        assert pre[x] == next[x];
      }
    }
    forall a | a in ClosedIn(events[i].event.effects.airportEffects)
      ensures a in ClosedAirports(next)
    {
      var y :| 0 <= y < |events[i].event.effects.airportEffects|
               && events[i].event.effects.airportEffects[y].isClosed
               && events[i].event.effects.airportEffects[y].airportId == a;
      assert next[i] == events[i];
    }
    forall a | a in ClosedAirports(pre) ensures a in ClosedAirports(next) {
      var x, y :| 0 <= x < |pre| && 0 <= y < |pre[x].event.effects.airportEffects|
                  && pre[x].event.effects.airportEffects[y].isClosed
                  && pre[x].event.effects.airportEffects[y].airportId == a;
      assert next[x] == pre[x];
    }
  }

  // ---------------------------------------------------------------------
  // Per-key product maps (new Map<string, number>() filled in a forEach)

  /** The entry for `k`, 1 when it is absent or zero. */
  function Get(m: map<string, real>, k: string): real {
    if k in m && m[k] != 0.0 then m[k] else 1.0
  }

  /** The entry for `k` multiplied by `f`. */
  function Put(m: map<string, real>, k: string, f: real): map<string, real> {
    m[k := Get(m, k) * f]
  }

  /** The map after the loop has put every (key, factor) pair in order. */
  function ProductMap(pairs: seq<(string, real)>): map<string, real> {
    if |pairs| == 0 then map[]
    else
      var last := pairs[|pairs| - 1];
      Put(ProductMap(pairs[..|pairs| - 1]), last.0, last.1)
  }

  /** Reference definition: the product of all factors given for key `k`. */
  function KeyProduct(pairs: seq<(string, real)>, k: string): real {
    if |pairs| == 0 then 1.0
    else
      var last := pairs[|pairs| - 1];
      KeyProduct(pairs[..|pairs| - 1], k) * (if last.0 == k then last.1 else 1.0)
  }

  predicate NonZeroFactors(pairs: seq<(string, real)>) {
    forall i :: 0 <= i < |pairs| ==> pairs[i].1 != 0.0
  }

  /** Reading a key back from the built map gives the product of every factor
    * put for that key (1 when none was), and the key is present exactly when
    * some pair names it. */
  lemma {:induction false} ProductMapGet(pairs: seq<(string, real)>, k: string)
    requires NonZeroFactors(pairs)
    ensures Get(ProductMap(pairs), k) == KeyProduct(pairs, k)
    ensures k in ProductMap(pairs) <==> exists i :: 0 <= i < |pairs| && pairs[i].0 == k
  {
    if |pairs| > 0 {
      var pre := pairs[..|pairs| - 1];
      var last := pairs[|pairs| - 1];
      ProductMapGet(pre, k);
      if last.0 == k {
        var g := Get(ProductMap(pre), k);
        assert g != 0.0;
        assert g * last.1 != 0.0;
      }
      if k in ProductMap(pairs) && last.0 != k {
        var i :| 0 <= i < |pre| && pre[i].0 == k;
        assert pairs[i].0 == k;
      }
      if exists i :: 0 <= i < |pairs| && pairs[i].0 == k {
        var i :| 0 <= i < |pairs| && pairs[i].0 == k;
        if i < |pre| { assert pre[i].0 == k; }
      }
    }
  }

  method BuildProductMap(pairs: seq<(string, real)>) returns (m: map<string, real>)
    ensures m == ProductMap(pairs)
  {
    m := map[];
    var i := 0;
    while i < |pairs|
      invariant 0 <= i <= |pairs|
      invariant m == ProductMap(pairs[..i])
    {
      assert pairs[..i + 1][..i] == pairs[..i];
      m := Put(m, pairs[i].0, pairs[i].1);
      i := i + 1;
    }
    assert pairs[..i] == pairs;
  }

  /** The (airport, multiplier) pairs of one event: effects whose demandMultiplier is truthy. */
  function EffectDemandPairs(effects: seq<AirportEffect>): seq<(string, real)> {
    if |effects| == 0 then []
    else
      var e := effects[|effects| - 1];
      EffectDemandPairs(effects[..|effects| - 1]) +
        (if e.demandMultiplier.Some? && e.demandMultiplier.value != 0.0
         then [(e.airportId, e.demandMultiplier.value)] else [])
  }

  function AirportDemandPairs(events: seq<ActiveEvent>): seq<(string, real)> {
    if |events| == 0 then []
    else AirportDemandPairs(events[..|events| - 1])
         + EffectDemandPairs(events[|events| - 1].event.effects.airportEffects)
  }

  /** The (region, multiplier) pairs of the campaigns that carry a regional modifier. */
  function RegionalDemandPairs(campaigns: seq<ActiveCampaign>): seq<(string, real)> {
    if |campaigns| == 0 then []
    else
      var c := campaigns[|campaigns| - 1];
      RegionalDemandPairs(campaigns[..|campaigns| - 1]) +
        (if c.campaign.effects.regionalDemandModifier.Some?
         then [(c.campaign.effects.regionalDemandModifier.value.region,
                c.campaign.effects.regionalDemandModifier.value.multiplier)]
         else [])
  }

  lemma {:induction false} EffectDemandPairsNonZero(effects: seq<AirportEffect>)
    ensures NonZeroFactors(EffectDemandPairs(effects))
  {
    if |effects| > 0 {
      EffectDemandPairsNonZero(effects[..|effects| - 1]);
    }
  }

  lemma {:induction false} AirportDemandPairsNonZero(events: seq<ActiveEvent>)
    ensures NonZeroFactors(AirportDemandPairs(events))
  {
    if |events| > 0 {
      AirportDemandPairsNonZero(events[..|events| - 1]);
      EffectDemandPairsNonZero(events[|events| - 1].event.effects.airportEffects);
    }
  }

  /** The airport demand map: for every airport, the product of the demand
    * multipliers of all active effects on it. */
  function AirportDemandModifiers(events: seq<ActiveEvent>): map<string, real> {
    ProductMap(AirportDemandPairs(events))
  }

  function RegionalDemandModifiers(campaigns: seq<ActiveCampaign>): map<string, real> {
    ProductMap(RegionalDemandPairs(campaigns))
  }

  /** The multiplier the settlement reads for an airport is the product of all
    * truthy demand multipliers aimed at it. */
  lemma AirportDemandIsProduct(events: seq<ActiveEvent>, airport: string)
    ensures Get(AirportDemandModifiers(events), airport) == KeyProduct(AirportDemandPairs(events), airport)
  {
    AirportDemandPairsNonZero(events);
    ProductMapGet(AirportDemandPairs(events), airport);
  }

  /** The nested forEach over events and their airport effects. */
  method BuildAirportDemandModifiers(events: seq<ActiveEvent>) returns (m: map<string, real>)
    ensures m == AirportDemandModifiers(events)
  {
    m := map[];
    var i := 0;
    while i < |events|
      invariant 0 <= i <= |events|
      invariant m == ProductMap(AirportDemandPairs(events[..i]))
    {
      assert events[..i + 1][..i] == events[..i];
      m := PutEffects(m, AirportDemandPairs(events[..i]), events[i].event.effects.airportEffects);
      i := i + 1;
    }
    assert events[..i] == events;
  }

  /** The inner forEach over one event's airport effects. */
  method PutEffects(m0: map<string, real>, before: seq<(string, real)>, effects: seq<AirportEffect>)
    returns (m: map<string, real>)
    requires m0 == ProductMap(before)
    ensures m == ProductMap(before + EffectDemandPairs(effects))
  {
    m := m0;
    assert before + EffectDemandPairs(effects[..0]) == before;
    var j := 0;
    while j < |effects|
      invariant 0 <= j <= |effects|
      invariant m == ProductMap(before + EffectDemandPairs(effects[..j]))
    {
      var e := effects[j];
      var done := before + EffectDemandPairs(effects[..j]);
      EffectDemandPairsStep(effects, j);
      if e.demandMultiplier.Some? && e.demandMultiplier.value != 0.0 {
        assert before + EffectDemandPairs(effects[..j + 1]) == done + [(e.airportId, e.demandMultiplier.value)];
        ProductMapSnoc(done, (e.airportId, e.demandMultiplier.value));
        m := Put(m, e.airportId, e.demandMultiplier.value);
      } else {
        assert before + EffectDemandPairs(effects[..j + 1]) == done;
      }
      j := j + 1;
    }
    assert effects[..j] == effects;
  }

  lemma EffectDemandPairsStep(effects: seq<AirportEffect>, j: nat)
    requires j < |effects|
    ensures var e := effects[j];
            EffectDemandPairs(effects[..j + 1])
            == EffectDemandPairs(effects[..j]) +
               (if e.demandMultiplier.Some? && e.demandMultiplier.value != 0.0
                then [(e.airportId, e.demandMultiplier.value)] else [])
  {
    assert effects[..j + 1][..j] == effects[..j];
  }

  lemma ProductMapSnoc(pairs: seq<(string, real)>, p: (string, real))
    ensures ProductMap(pairs + [p]) == Put(ProductMap(pairs), p.0, p.1)
  {
    assert (pairs + [p])[..|pairs|] == pairs;
  }

  /** The forEach over the active campaigns. */
  method BuildRegionalDemandModifiers(campaigns: seq<ActiveCampaign>) returns (m: map<string, real>)
    ensures m == RegionalDemandModifiers(campaigns)
  {
    m := map[];
    var i := 0;
    while i < |campaigns|
      invariant 0 <= i <= |campaigns|
      invariant m == ProductMap(RegionalDemandPairs(campaigns[..i]))
    {
      var c := campaigns[i];
      var done := RegionalDemandPairs(campaigns[..i]);
      assert campaigns[..i + 1][..i] == campaigns[..i];
      assert campaigns[..i + 1][i] == c;
      if c.campaign.effects.regionalDemandModifier.Some? {
        var rm := c.campaign.effects.regionalDemandModifier.value;
        assert RegionalDemandPairs(campaigns[..i + 1]) == done + [(rm.region, rm.multiplier)];
        ProductMapSnoc(done, (rm.region, rm.multiplier));
        m := Put(m, rm.region, rm.multiplier);
      } else {
        assert RegionalDemandPairs(campaigns[..i + 1]) == done + [];
        assert RegionalDemandPairs(campaigns[..i + 1]) == done;
      }
      i := i + 1;
    }
    assert campaigns[..i] == campaigns;
  }
}
