# Air management: the economic engine

A model, in Dafny, of the economic engine of the airline-management game
"air-management". The player runs an airline against four AI airlines.
They buy and sell aircraft, open routes between airports, assign aircraft to
routes, price tickets, pick a hub, run research projects and marketing
campaigns, and form alliances. A clock advances the game day by day. Each day
finishes due research and drops expired campaigns. At each change of month the
AI airlines take their turn, a random event may strike, and the month is
settled: per route, the market share against rival airlines, the realised
demand, the passengers, the income, the fuel bill and the airport fees, then
the month's report. A negative cash balance ends the game.

The model has one module per part of the engine:

- `Common`: rounding, clamping and the JavaScript "or" defaults on numbers.
- `Model`: the entities and the find/filter lookups.
- `Commands`: the player's commands as updates of the player, the alliances
  and the competitors.
- `Lifecycle`: the daily step, the monthly event step and game over.
- `Modifiers`: the event and campaign multipliers and the demand maps.
- `RouteEconomics`: the per-route formulas shared by the settlement and the
  screens.
- `Settlement`: the player's monthly settlement.
- `AiTurn`: the AI airlines' monthly turn.
- `Session`: the running app as the class `GameSession`. Each state change is
  a method proved against a function of the state before it. The lemmas next
  to it show that every step keeps `ValidState`: the fleet and the routes
  agree, every ticket price can divide the standard fare, the event history
  holds at most 20 entries, satisfaction lies in [0, 100] and on-time
  performance in [70, 99].
- The screens whose logic feeds the engine: `RouteEstimator` (route card and
  route detail modal), `Rankings`, `ResearchPanel`, `FleetPanel`, `Paging`,
  `AssignmentModal`, `HubModal`, `MarketingPanel`, `AlliancePanel` and
  `RouteCard`.

Conventions:

- JavaScript numbers are mathematical reals.
- `Math.round` is `Common.Round`, the floor of x + 0.5.
- Dates are day numbers. Where the calendar matters (the fleet age label) a
  date is a year, a 0-based month and a day.
- Every random draw is a parameter: a `bool` for each "chance" and a `nat`
  for each pick, taken modulo the length of the list picked from.
- Generated ids, distances between airports and the static catalogs
  (aircraft models, airports, events, research projects, campaigns) are
  parameters too.

Some behaviour of the game is easy to misread; the model follows the code:

- With no rival on a route one might expect a market share of exactly 1.
  The settlement divides the player's score by itself, so a player whose
  satisfaction is 0 gets a share of 0 (`RouteEstimator.ZeroSatisfactionShares`).
  Only the screens force the share to 1.
- The settlement reads the state as it was when the month changed. Its final
  update overwrites cash and satisfaction, so the one-off cash and
  satisfaction effect of an event drawn in the same month is lost
  (`Lifecycle.EventDeltaDiscarded`).
- The first day of a month is one commit: the daily and monthly effects run
  in the same render and read the same values. The monthly gate sees the
  notice on screen before the day, and the settlement is computed from the
  player before the day. Research completed that day keeps its modifiers,
  service quality and completed entry, but its cash and satisfaction change
  is lost (`Session.DayTickSpec`, `Lifecycle.ResearchDeltaDiscarded`). An
  event drawn that month replaces the research notice on screen.
- The screens' monthly estimate is not the settlement's formula. A month
  always has 30 days, airport events are left out, the share is 1 without
  rivals, and an alliance partner must itself carry the alliance's id. The
  compact card's competition badge is a distance heuristic and does not look
  at competitors. `RouteEstimator.EstimateMatchesSettlement` and
  `RouteEconomics.AllianceBonusChain` state exactly when the estimate and the
  settlement agree.

## Model

| member | source | states |
|---|---|---|
| Common.Clamp | App.tsx:531 | The result lies in [lo, hi]. It is x when x is inside and the nearer bound otherwise. |
| Common.Round | App.tsx:615 | Math.round: the result is within half a unit of x, and halves round up. |
| Common.Ceil | components/Marketing.tsx:106 | Math.ceil: the least integer not below x. |
| Common.OrOne | App.tsx:447-449 | A missing or zero factor counts as 1; any other factor is kept. |
| Common.OrZero | App.tsx:430-431 | A missing amount counts as 0; a present one is kept. |
| Common.RoundMonotone | App.tsx:615 | Rounding never reverses the order of two amounts. |
| Common.RoundIntegral | App.tsx:611 | Rounding leaves a whole number unchanged. |
| Common.RoundNonNegative | App.tsx:638-642 | A non-negative amount never rounds below 0. |
| Common.RoundBelowIntegral | App.tsx:616 | An amount at most n rounds to at most n. |
| Common.DivBounds | App.tsx:520 | A quotient lies between the bounds of its dividend, divided by the divisor. |
| Common.MulNonNegative | App.tsx:579 | A product of non-negative factors is non-negative. |
| Common.MulLeft | App.tsx:614 | Scaling both sides of an inequality by a non-negative factor keeps it. |
| Common.MulMonotone | App.tsx:617 | A product of non-negative factors grows with each factor. |
| Common.DivAntitone | App.tsx:577 | Dividing by a larger positive number gives a smaller (or equal) quotient. |
| Common.DivAtLeastOne | components/ResearchAndDevelopment.tsx:109 | A part of a positive whole reaches 100% exactly when it reaches the whole. |
| Common.DivAntitoneNumerator | App.tsx:582 | Dividing by the same positive number keeps the order of the dividends. |
| Common.ElapsedPercent | components/ResearchAndDevelopment.tsx:109 | The progress percentage never exceeds 100 and is not negative once the start day is reached. |
| Common.DaysLeft | components/ResearchAndDevelopment.tsx:110 | Whole days left: never negative, 0 once the end is reached, at least 1 before it. |
| Common.FullWhenNoDaysLeft | components/Marketing.tsx:105-106 | The bar is full exactly when no whole day is left, and both happen exactly from the end day on. |
| Model.FindIndex | App.tsx:1014 | The index returned is the first whose element passes the test; none means no element passes. |
| Model.Find | App.tsx:557 | The element returned is the first one in the list that passes the test; none means no element passes. |
| Model.Filter | App.tsx:890 | The result is no longer than the list and holds exactly the elements that pass the test. |
| Model.FilterNoneKept | App.tsx:228 | When no element passes, the filter is empty. |
| Model.FilterKeepsUnique | App.tsx:890 | Filtering a list with unique keys leaves the keys unique. |
| Model.ConsistentRouteAircraft | App.tsx:1017-1034 | In a consistent state the aircraft a route names exists, is in service, and names that route. |
| Commands.PurchaseAircraft | App.tsx:837-861 | Refused when cash is below the price. Otherwise the price is paid and one idle, unrouted aircraft bought today joins the fleet; cash stays non-negative. |
| Commands.SaleFactorBounds | App.tsx:884-888 | The share of the price an aircraft keeps falls with age, from 1 down to its floor of a fifth. |
| Commands.DepreciatedBounds | App.tsx:888 | The rounded depreciated price lies between the rounded fifth and the rounded price, and follows the kept share. |
| Commands.ScaledOrder | App.tsx:888 | A larger kept share never gives a lower rounded price. |
| Commands.SalePriceBounds | App.tsx:884-888 | The sale price lies between a fifth of the model price (rounded) and the model price, and an older aircraft never sells for more. |
| Commands.SalePrice | App.tsx:884-888 | The depreciated sale price; specified by Commands.SalePriceBounds. |
| Commands.SellAircraft | App.tsx:863-900 | Refused for a missing aircraft, one in service or one of an unknown model. Otherwise the depreciated price is paid in and exactly the aircraft with that id leave the fleet. |
| Commands.CreateRoute | App.tsx:940-981 | Refused for an unknown airport. Otherwise one route is appended with no aircraft and the rounded standard fare as its price. Its base demand is the route-creation formula on the two airports' sizes and the distance, at least 20. |
| Commands.AssignAircraft | App.tsx:1007-1044 | An unknown route changes nothing. Otherwise only the fleet and routes change. The route names the new aircraft. In the fleet, the new aircraft (found by id) goes into service on the route, the route's old aircraft (found by id) is grounded, and every other aircraft is unchanged. |
| Commands.UnassignAircraft | App.tsx:1046-1077 | An unknown route, or one without an aircraft, changes nothing. Otherwise only the fleet and routes change. The route names no aircraft, its aircraft (found by id) is grounded, and every other aircraft is unchanged. |
| Commands.SameIds | App.tsx:1020-1031 | Fleets with the same ids position by position have the same id list, and so the same uniqueness. |
| Commands.SameIdsSameIndex | App.tsx:1028 | Fleets with the same id list find any id at the same index. |
| Commands.GroundRouteAircraftSpec | App.tsx:1020-1026 | Grounding the route's old aircraft changes only that aircraft and leaves no aircraft naming the route. |
| Commands.RelinkConsistent | App.tsx:1028-1034 | Putting an unrouted aircraft into service on the route restores consistency. |
| Commands.UnlinkConsistent | App.tsx:1062-1069 | Leaving the route with no aircraft restores consistency. |
| Commands.AssignKeepsConsistent | App.tsx:1007-1044 | Assigning an idle aircraft keeps the fleet and the routes consistent; afterwards that aircraft is in service on the route. |
| Commands.UnassignKeepsConsistent | App.tsx:1046-1077 | Unassigning keeps the fleet and the routes consistent; afterwards the route names no aircraft. |
| Commands.CreateRouteKeepsConsistent | App.tsx:940-981 | A new route with a fresh id keeps the fleet and the routes consistent. |
| Commands.PurchaseKeepsConsistent | App.tsx:837-861 | An aircraft bought with a fresh id keeps the fleet and the routes consistent. |
| Commands.IdleUnrouted | App.tsx:873 | In a consistent state no route names an idle aircraft. |
| Commands.SaleKeepsNamed | App.tsx:873-890 | Selling an idle aircraft keeps every aircraft that a route names. |
| Commands.IdKept | App.tsx:890 | Removing the aircraft with one id keeps every other id. |
| Commands.SaleKeepsConsistent | App.tsx:863-900 | A sale keeps the fleet and the routes consistent. |
| Commands.UpdateTicketPrice | App.tsx:1079-1095 | Exactly the routes with that id take the new price. No other field of the player changes. |
| Commands.UpdateTicketPriceKeeps | App.tsx:1079-1095 | A price change keeps consistency, and a positive price keeps every ticket price positive. |
| Commands.SetHub | App.tsx:1122-1128 | The hub becomes the chosen airport, and every route touching it now pays less than the full daily airport fee. |
| Commands.StartResearch | App.tsx:1130-1145 | Refused when cash is below the cost or research is running. Otherwise the cost is paid and the project runs from today; cash stays non-negative. |
| Commands.StartCampaign | App.tsx:1147-1175 | Refused when cash is below the cost or a campaign runs. Otherwise the cost is paid, the campaign is the only one running and ends after its duration, and brand awareness rises by its effect, capped at 100. |
| Commands.FormAlliance | App.tsx:1177-1196 | Refused for a player already in an alliance or with less than 100,000,000. Otherwise the fee is paid and a new alliance whose only member is the player is appended. |
| Commands.Dedupe | App.tsx:1206 | Removing duplicates keeps every member and leaves no member twice. |
| Commands.DedupeDistinct | App.tsx:1206 | A list without repeats is unchanged by removing duplicates. |
| Commands.Invite | App.tsx:1198-1218 | Without an alliance nothing changes. Otherwise only the player's alliance gains the competitor, and only that competitor takes the alliance id. |
| Commands.InviteAddsOnce | App.tsx:1203-1208 | A member list without repeats gains the invitee exactly once: unchanged if already there, appended otherwise. |
| Commands.Leave | App.tsx:1220-1249 | Without an alliance nothing changes. Otherwise the player loses the alliance and 5 satisfaction, not below 0. |
| Commands.LeaveSpec | App.tsx:1220-1249 | After leaving, the player is in no alliance and in no member list of the old alliance. An unknown alliance leaves the lists alone. An alliance left with at least two other members keeps exactly those, in order, and the competitors do not change. One left with fewer is removed from the list, which otherwise keeps its order, and exactly its remaining members lose their alliance id. |
| Lifecycle.Scale | App.tsx:180-185 | An absent or zero research factor leaves the modifier alone; any other factor multiplies it. |
| Lifecycle.CompleteResearch | App.tsx:171-204 | The factors multiply into the research modifiers and cash moves by the cash effect. Satisfaction and service quality move by their effects, clamped to [0, 100]. The project is recorded as completed, no research is active, and nothing else changes. |
| Lifecycle.FilterIdempotent | App.tsx:228 | Filtering twice by the same test is filtering once. |
| Lifecycle.ExpiryKeepsRunning | App.tsx:225-235 | Expiry keeps exactly the campaigns (and events) that run past today, and a second expiry on the same day changes nothing. |
| Lifecycle.ExpireCampaigns | App.tsx:228 | The daily campaign expiry; specified by Lifecycle.ExpiryKeepsRunning. |
| Lifecycle.ExpireEvents | App.tsx:417 | The monthly event expiry; specified by Lifecycle.ExpiryKeepsRunning. |
| Lifecycle.DailyStep | App.tsx:211-236 | The player is the completed-research player when research is due, the unchanged player otherwise, with expired campaigns dropped in both cases. The completion notice appears exactly when research is due, and afterwards no research is due. |
| Lifecycle.DailyStepSettles | App.tsx:162-236 | The effect re-runs whenever the player changes; a second run on the same day changes nothing and shows nothing. |
| Lifecycle.PushHistory | App.tsx:442 | The new event heads the history, followed by the older ones in order, and the history never holds more than 20. |
| Lifecycle.ApplyEventDelta | App.tsx:428-437 | Cash moves by the event's cash effect. Satisfaction moves by the event's satisfaction effect, clamped to [0, 100]. Nothing else changes. |
| Lifecycle.MonthlyEvents | App.tsx:414-444 | Expired events are dropped. On a draw, the picked event is applied, stays active only if it lasts, heads the history and is shown. |
| Lifecycle.EventDeltaDiscarded | App.tsx:659-671 | The settlement's final update makes the player the same with or without the month's event delta. |
| Lifecycle.ResearchDeltaDiscarded | App.tsx:659-671 | Settling a player just after research completion equals settling it before, plus only the completion's service quality, modifiers and completed list; the completion's cash and satisfaction change is lost. |
| Lifecycle.GameOverCheck | App.tsx:240-248 | The game ends exactly when cash is negative while playing, and a running clock then stops. An unchanged state keeps its speed. |
| Modifiers.ModifierAppend | App.tsx:447-449 | The multiplier of two lists of events is the product of their multipliers. |
| Modifiers.Modifier | App.tsx:447-449 | The product of the events' factors; specified by Modifiers.ModifierAppend, ModifierNeutral, SingleEventModifier and ModifierPositive. |
| Modifiers.ModifierUpToAppend | App.tsx:447-449 | Part way through the second list, the fold is the first list's multiplier times the fold so far. |
| Modifiers.TimesAssociative | App.tsx:447 | The fold's product step is associative. |
| Modifiers.ModifierPrefix | App.tsx:447 | Appending events does not change the fold over the first ones. |
| Modifiers.ModifierNeutral | App.tsx:447-449 | Events with no multiplier of a kind (absent or 0) leave it at 1, so no events give 1. |
| Modifiers.ModifierUpToNeutral | App.tsx:447-449 | Every prefix of the fold over neutral events is 1. |
| Modifiers.SingleEventModifier | App.tsx:447 | A single event gives exactly its own multiplier. |
| Modifiers.ModifierPositive | App.tsx:447-449 | Positive multipliers give a positive product. |
| Modifiers.ModifierUpToPositive | App.tsx:447-449 | Every prefix of the fold over positive multipliers is positive. |
| Modifiers.FuelPriceExamples | App.tsx:449-450 | Without fuel events the fuel price is 1.2 times the research factor; one +50% event without research gives 1.8. |
| Modifiers.CurrentFuelPrice | App.tsx:449-450 | The month's fuel price; specified by Modifiers.FuelPriceExamples. |
| Modifiers.CollectClosedAirports | App.tsx:99-110 | The loop collects exactly the airports closed by an effect of an active event. |
| Modifiers.ClosedAirports | App.tsx:99-109 | The closed airports; specified by Modifiers.CollectClosedAirports and ClosedAirportsStep. |
| Modifiers.ClosedAirportsStep | App.tsx:101-108 | One more event adds exactly the airports its own effects close. |
| Modifiers.ProductMapGet | App.tsx:452-462 | Reading an airport back from the built map gives the product of every factor put for it (1 when none was). The key is present exactly when some pair names it. |
| Modifiers.BuildProductMap | App.tsx:464-471 | The loop builds the map that reads back as the products. |
| Modifiers.EffectDemandPairsNonZero | App.tsx:456 | Only truthy, so non-zero, demand multipliers enter the map. |
| Modifiers.AirportDemandPairsNonZero | App.tsx:453-461 | No zero factor enters the airport map. |
| Modifiers.AirportDemandIsProduct | App.tsx:452-462 | The multiplier the settlement reads for an airport is the product of all truthy demand multipliers aimed at it. |
| Modifiers.AirportDemandModifiers | App.tsx:452-462 | The airport demand map; specified by Modifiers.AirportDemandIsProduct and BuildAirportDemandModifiers. |
| Modifiers.BuildAirportDemandModifiers | App.tsx:452-462 | The nested loop over events and their airport effects builds the airport demand map. |
| Modifiers.PutEffects | App.tsx:455-460 | The inner loop adds one event's pairs to the map. |
| Modifiers.EffectDemandPairsStep | App.tsx:456-459 | One more effect adds its pair exactly when its multiplier is truthy. |
| Modifiers.ProductMapSnoc | App.tsx:457-458 | Putting one more pair multiplies that key's entry by the factor. |
| Modifiers.BuildRegionalDemandModifiers | App.tsx:464-471 | The loop over campaigns builds the regional demand map. |
| Modifiers.RegionalDemandModifiers | App.tsx:464-471 | The regional demand map; specified by Modifiers.BuildRegionalDemandModifiers and ProductMapGet. |
| RouteEconomics.CompetitorsOnRoute | App.tsx:568-575 | Exactly the competitors outside the player's alliance that fly the airport pair, either way round. |
| RouteEconomics.AllyNeverCompetes | App.tsx:569 | A competitor in the player's own alliance is never a rival. |
| RouteEconomics.FilterCongruent | App.tsx:568-575 | Filters by tests that agree on the list give the same result. |
| RouteEconomics.CompetitorsOnRouteSymmetric | App.tsx:571-574 | Flying A to B and flying B to A are the same competition. |
| RouteEconomics.PriceFactor | App.tsx:577 | The price factor is never below 0.1. |
| RouteEconomics.StandardFare | App.tsx:566 | 0.30 per kilometre; specified through RouteEconomics.PriceFactor, FullFareBound and Commands.CreateRoute. |
| RouteEconomics.PlayerScoreSign | App.tsx:577-579 | With non-negative satisfaction and brand awareness the score is non-negative, and positive exactly when satisfaction is. |
| RouteEconomics.PlayerScore | App.tsx:577-579 | The player's competitive score; specified by RouteEconomics.PlayerScoreSign and MarketShare. |
| RouteEconomics.MarketShare | App.tsx:581-582 | The share is in [0, 1]. It is 1 with no rival and a positive score, below 1 with rivals, and 0 with a zero score. |
| RouteEconomics.MarketShareFallsWithRivals | App.tsx:581-582 | Every extra rival lowers or keeps the share. |
| RouteEconomics.AllianceStep | App.tsx:593-595 | The alliance bonus keeps a non-negative demand non-negative. |
| RouteEconomics.HubStep | App.tsx:609-612 | The hub bonus keeps demand non-negative and makes it whole. |
| RouteEconomics.RouteDemand | App.tsx:584-612 | Non-negative inputs give non-negative demand, and a hub route's demand is whole. |
| RouteEconomics.ChainNonNegative | App.tsx:584-607 | The chain before the hub step keeps non-negative inputs non-negative. |
| RouteEconomics.RoundNonNegativeIf | App.tsx:611 | A non-negative amount rounds to a non-negative whole. |
| RouteEconomics.RouteDemandNeutral | App.tsx:584-612 | With every modifier neutral the demand is the route's base demand, and a hub adds 20%, rounded. |
| RouteEconomics.DailyPassengers | App.tsx:614-616 | Passengers never exceed the seats. They are non-negative for non-negative inputs, and whenever the aircraft is not full they are the rounded product of demand, share and the satisfaction multiplier. |
| RouteEconomics.ProductRoundsNonNegative | App.tsx:615 | A product of non-negative factors rounds to a non-negative whole. |
| RouteEconomics.DailyAirportFeeByHub | App.tsx:623-633 | The daily fee is 1000 less 250 per hub endpoint, so it lies in [500, 1000] and is below 1000 exactly on a hub route. |
| RouteEconomics.DailyAirportFee | App.tsx:623-633 | The hub-discounted daily fee; specified by RouteEconomics.DailyAirportFeeByHub. |
| RouteEconomics.OverDaysMonotone | App.tsx:617 | A larger daily amount gives a larger monthly amount. |
| RouteEconomics.DailyFareMonotone | App.tsx:617 | Fewer passengers than seats never earn more per day than a full aircraft. |
| RouteEconomics.FullFareBound | App.tsx:616-617 | A month's ticket income never exceeds a full aircraft every day. |
| RouteEconomics.DailyFuel | App.tsx:620 | A day's out-and-back fuel; specified by Settlement.RouteSettlementFlown, which shows the fuel bill does not depend on demand. |
| RouteEconomics.BaseDemand | App.tsx:960 | A new route's base demand is a whole number of at least 20. |
| RouteEconomics.BaseDemandMonotone | App.tsx:960 | Longer routes never get more base demand, and bigger airports never get less. |
| RouteEconomics.AllianceBonusChain | App.tsx:587-597 | The estimator's alliance test implies the settlement's, which in turn implies the card's badge. |
| RouteEconomics.NoAllianceNoBonus | App.tsx:587-597 | Without an alliance, with an unknown one, or with no partner, none of the three tests grants anything. |
| Settlement.OnTimeLossBounds | App.tsx:475-482 | The loss is between 0 and 0.1 per aircraft, and 0 when no aircraft in service is over 20 years old. |
| Settlement.UpdateOnTimePerformance | App.tsx:473-488 | The loop computes the month's on-time performance, which always lies in [70, 99]. |
| Settlement.PriceSatisfaction | App.tsx:501-509 | The price term lies in [-3, 1.5], including the division by a zero standard fare. |
| Settlement.AgeSatisfaction | App.tsx:512-517 | The age term lies in [-2, 0.5]. |
| Settlement.TallySatisfaction | App.tsx:490-519 | The loop adds up the points and counts the routes that earned them. |
| Settlement.TallyBounds | App.tsx:494-519 | Exactly the routes whose aircraft is in the fleet are counted, and each brings between -5 and +2 points. |
| Settlement.AverageChangeBounds | App.tsx:520 | The average change lies in [-5, 2], and is 0 when no route is flown. |
| Settlement.NewSatisfaction | App.tsx:522-531 | The month's satisfaction lies in [0, 100]. |
| Settlement.PlusAssociative | App.tsx:618-635 | Adding route amounts is associative. |
| Settlement.NoTakeNeutral | App.tsx:550-559 | A skipped route adds nothing to the totals. |
| Settlement.RoutePassengers | App.tsx:614-616 | A flown route never carries more passengers a day than its aircraft has seats. |
| Settlement.RouteSettlement | App.tsx:550-636 | A route with no aircraft, a closed endpoint, or an unknown aircraft or model adds nothing. |
| Settlement.RouteSettlementFlown | App.tsx:613-635 | On a flown, open route the income never exceeds a full aircraft every day. The fees are the hub-discounted daily fee every day, and fuel does not depend on demand. |
| Settlement.FlownIsTake | App.tsx:557-635 | On a flown, open route the loop's pass is the month of that aircraft's model. |
| Settlement.RouteTotalsSkipIdle | App.tsx:551-555 | A route with no aircraft or a closed endpoint leaves the month's totals unchanged wherever it sits. |
| Settlement.AccumulateRoutes | App.tsx:546-636 | The loop accumulates exactly the month's route totals. |
| Settlement.SalaryGrowth | App.tsx:542-544 | Salaries are 200,000, plus 40,000 per aircraft and 15,000 per route. |
| Settlement.SalaryCost | App.tsx:542-544 | The month's salaries; specified by Settlement.SalaryGrowth. |
| Settlement.MonthReport | App.tsx:638-657 | The report's total expenses are the sum of its four expense lines. |
| Settlement.MonthReportModifiers | App.tsx:638-642 | The expense modifier never touches fuel; with both modifiers at 1 every figure is the rounded raw amount. |
| Settlement.ApplySettlement | App.tsx:659-671 | The report is appended to the history whatever the cash. Cash, satisfaction, on-time performance and the fuel price come from the settlement, and last month's income and expense are the report's. Every other player field is kept. |
| Settlement.Settle | App.tsx:251-682 | The whole settlement is computed. On-time performance lies in [70, 99] and satisfaction in [0, 100], and the new cash is the old cash plus income less total expenses. |
| Settlement.SettleMonth | App.tsx:251-682 | The month's settlement from the snapshot; specified by Settlement.Settle, SettleSatisfaction, SettleReport and NoRoutesReport. |
| Settlement.SettleSatisfaction | App.tsx:490-531 | The satisfaction steps give the clamped update of the average route change. |
| Settlement.SettleContext | App.tsx:447-471 | The maps and the fuel price the route loop reads are built from the events and campaigns. |
| Settlement.SettleReport | App.tsx:537-657 | The report steps give the month's report. |
| Settlement.NoRoutesReport | App.tsx:537-645 | A month with no routes earns nothing and loses exactly maintenance plus salaries, scaled by the expense modifier. |
| AiTurn.AiFuelPrice | App.tsx:265 | The AI fuel price is the player's when non-zero and never 0. |
| AiTurn.Financials | App.tsx:268-291 | The month's financials change only the competitor's cash. |
| AiTurn.SimulateFinancials | App.tsx:268-291 | The loops compute the competitor after its financials. |
| AiTurn.AiIncomeNonNegative | App.tsx:271-283 | A competitor's flat-load income is never negative; with no routes it earns and spends nothing on routes. |
| AiTurn.AiPurchase | App.tsx:295-309 | An aircraft is bought exactly when the draw fires and some catalog model costs less than half the cash. The bought model is the picked affordable one, its price is paid, and the new idle aircraft is dated today; cash stays above half. Otherwise nothing changes. |
| AiTurn.Affordable | App.tsx:296 | The models costing less than half the cash; specified by AiTurn.AiPurchase. |
| AiTurn.CompeteRoute | App.tsx:318-349 | A route is copied exactly when the draw fires, the competitor is not allied with the player, some flown player route is in range on a pair the competitor does not serve, and both airports of the picked one are known. The copy has that route's airports and distance, the idle aircraft, the standard fare and the route-creation base demand. |
| AiTurn.CompeteTargets | App.tsx:321-328 | The player routes that may be copied; specified by AiTurn.CompeteRoute. |
| AiTurn.OrganicRoute | App.tsx:351-379 | A route is opened exactly when the draw fires, some airport is larger than size 2 and the picked origin has a destination in range on an unserved pair. The route joins the picked origin and destination, two different airports, with the idle aircraft, the standard fare and the route-creation base demand. |
| AiTurn.OrganicOrigins | App.tsx:352 | The possible origins; specified by AiTurn.OrganicRoute. |
| AiTurn.OrganicDestinations | App.tsx:356-360 | The possible destinations from an origin; specified by AiTurn.OrganicRoute. |
| AiTurn.ExpandSpec | App.tsx:312-390 | Either nothing changes, or one new route on an airport pair the competitor did not serve is appended, its first idle aircraft goes into service on it, and cash and alliance are unchanged. |
| AiTurn.ExpandChoosesRoute | App.tsx:312-387 | The competitor expands exactly when its first idle aircraft has a known model and a competing or organic route is chosen; the competing route is preferred and is the one appended. |
| AiTurn.Expand | App.tsx:312-390 | The expansion step; specified by AiTurn.ExpandSpec, ExpandChoosesRoute and AlliedNeverTargets. |
| AiTurn.AlliedNeverTargets | App.tsx:318-320 | A competitor allied with the player never copies a player route. |
| AiTurn.FirstWord | App.tsx:398 | The first word is a space-free prefix of the name, ending at its first space. |
| AiTurn.PickTwo | App.tsx:396 | Two distinct positions of a list of at least two. |
| AiTurn.FormAiAllianceSpec | App.tsx:394-410 | An alliance forms exactly when the draw fires and at least two competitors are unaligned. It has exactly two different, previously unaligned members, exactly they now carry its id, and without it nothing changes. |
| AiTurn.FormAiAlliance | App.tsx:394-409 | The AI alliance step; specified by AiTurn.FormAiAllianceSpec. |
| AiTurn.UnalignedIndices | App.tsx:394-396 | Two positions of the unaligned list are two different competitors, both unaligned. |
| AiTurn.TakeTurn | App.tsx:263-391 | One competitor's turn is its financials, then its purchase, then its expansion. |
| AiTurn.CompetitorTurn | App.tsx:263-391 | One competitor's turn; specified by AiTurn.TakeTurn with Financials, AiPurchase and ExpandSpec. |
| AiTurn.RunAiTurn | App.tsx:260-411 | Every competitor takes its turn, then the alliance step runs; no competitor is added or lost. |
| AiTurn.AiTurnResult | App.tsx:260-411 | The whole AI turn; specified by AiTurn.RunAiTurn. |
| RouteEstimator.AssignedModel | components/RouteManagement.tsx:76-77 | A model is found only for a route naming an aircraft, and it is from the catalog. |
| RouteEstimator.DemandWithoutEventsIsNeutralEvent | components/RouteManagement.tsx:136-158 | The estimator's demand is the settlement's chain with a neutral airport-event factor. |
| RouteEstimator.EstimatedPassengers | components/RouteManagement.tsx:159-161 | Estimated passengers never exceed the seats. |
| RouteEstimator.Figures | components/RouteManagement.tsx:162-178 | The load factor is at most 100, and exactly 100 for a full aircraft. |
| RouteEstimator.LoadFactorBound | components/RouteManagement.tsx:162 | A full aircraft has load factor 100, and fewer passengers never show more. |
| RouteEstimator.FlownEstimate | components/RouteManagement.tsx:125-179 | A flown route's estimated load factor is at most 100. |
| RouteEstimator.RouteEstimate | components/RouteManagement.tsx:103-187 | Profit is income less costs, and the load factor is at most 100. |
| RouteEstimator.EstimateRoute | components/RouteManagement.tsx:103-187 | The card's updates compute the estimate. |
| RouteEstimator.EstimateFlown | components/RouteManagement.tsx:125-179 | The flown branch computes the flown estimate. |
| RouteEstimator.EstimatePassengers | components/RouteManagement.tsx:159-161 | The passenger steps give the capped daily passengers. |
| RouteEstimator.EstimateFigures | components/RouteManagement.tsx:162-178 | The figure steps give load factor, income, costs and profit. |
| RouteEstimator.EstimateShare | components/RouteManagement.tsx:127-133 | The share steps give the estimator's share. |
| RouteEstimator.EstimateDemand | components/RouteManagement.tsx:136-158 | The demand steps give the event-free chain with the larger endpoint region factor. |
| RouteEstimator.HubStepRounds | components/RouteManagement.tsx:155-158 | The hub step rounds the demand raised by 20%. |
| RouteEstimator.EstimateAirportFee | components/RouteManagement.tsx:166-174 | The fee steps give the same hub-discounted daily fee as the settlement. |
| RouteEstimator.ClosedRouteZeroed | components/RouteManagement.tsx:181-187 | A closed route shows zero for every figure. |
| RouteEstimator.NoRivalsNoCompetitors | components/RouteManagement.tsx:83-90 | With no rival on the pair the competitor list is empty. |
| RouteEstimator.NoRivalsFullShare | components/RouteManagement.tsx:133 | A flown, open route with no rival shows a share of exactly 1, whatever the score. |
| RouteEstimator.EstimatedCosts | components/RouteManagement.tsx:166-175 | Costs are 30 days of fuel plus 30 days of the fee of 1000 less 250 per hub endpoint, rounded once. |
| RouteEstimator.EstimateMatchesSettlement | components/RouteManagement.tsx:125-179 | On a 30-day month without airport events, with the same alliance bonus and positive satisfaction, the estimated income and costs are the settled ones, rounded. |
| RouteEstimator.PassengersAgree | components/RouteManagement.tsx:159-161 | Under the same conditions the estimated passengers are the settled ones. |
| RouteEstimator.DemandAgrees | components/RouteManagement.tsx:136-158 | Without airport events and with the same alliance bonus the estimated demand is the settled demand. |
| RouteEstimator.ShareAgrees | components/RouteManagement.tsx:127-133 | With positive satisfaction the estimated share is the settled share. |
| RouteEstimator.ZeroSatisfactionShares | components/RouteManagement.tsx:133 | With no rival and satisfaction 0 the settlement's share is 0 but the estimate shows 1. |
| RouteEstimator.PartnerMustBeAllied | components/RouteManagement.tsx:111-123 | With no competitor in the player's alliance there is no estimated alliance bonus. |
| RouteEstimator.CardPriceUpdate | components/RouteManagement.tsx:63-70 | The price is forwarded exactly when it parses to a positive whole number; otherwise the input is reset to the current price. |
| RouteEstimator.ModalPriceUpdate | components/RouteDetailModal.tsx:92-101 | Without a route nothing happens; with one, the modal acts like the card. |
| RouteEstimator.ForwardedPriceKeepsValid | components/RouteManagement.tsx:63-70 | Every price forwarded keeps the session valid. |
| RouteEstimator.ModalShows | components/RouteDetailModal.tsx:219-221 | The modal renders exactly when open with a route whose two airports are in the catalog. |
| RouteEstimator.RoutePage | components/RouteManagement.tsx:335-338 | A page holds at most two routes. |
| RouteEstimator.RouteListPaging | components/RouteManagement.tsx:327-338 | After the clamp the page is one of those offered, and every route is on the page its position gives. |
| Session.NewGameValid | App.tsx:696-751 | A new game is valid, playing and paused, with 500,000,000 cash. The four AI airlines each have two idle aircraft, no alliance, and 1,450,000,000 between them. |
| Session.NewPlayer | App.tsx:701-722 | The new player; specified by Session.NewGameValid. |
| Session.StartingCompetitors | App.tsx:728-750 | The four starting AI airlines; specified by Session.NewGameValid. |
| Session.AdvanceDayKeepsValid | App.tsx:142-236 | A day keeps the state valid. A running game moves one day on, its player becomes the daily step's result, and due research is announced. A paused or finished game does not change. |
| Session.AdvanceDayState | App.tsx:142-236 | The day's state change; specified by Session.AdvanceDayKeepsValid. |
| Session.MonthlyTickSpec | App.tsx:251-682 | For the monthly effect in a render that does not move the date (after a report or notice closes): a due month keeps the state valid and settles the player from the state at the start of that render. It appends one report and marks the month processed. The report is shown exactly when the new cash is not negative, and then the clock stops. |
| Session.MonthlyTickState | App.tsx:250-682 | The monthly effect in a render that does not move the date; specified by Session.MonthlyTickSpec and MonthlyTickValid. |
| Session.DayTickState | App.tsx:142-682 | One tick as committed: the day, and in the same render the monthly effect gated on the pre-day notice and settled from the pre-day player; specified by Session.DayTickWithoutMonth, DayTickSettles and DayTickSpec. |
| Session.MonthAfterDay | App.tsx:251-682 | The monthly effect of the pre-day render landing on the state after the day; specified by Session.MonthAfterDaySpec. |
| Session.MonthAfterDaySpec | App.tsx:414-682 | The player after the day gets the settlement of the pre-day render, the report shows and the clock stops exactly when the new cash is not negative, the month is marked processed, and the history stays capped. |
| Session.DayTickWithMonth | App.tsx:142-682 | A running tick that finds the month due is the day followed by the monthly effect of the render before it. |
| Session.DayTickValid | App.tsx:142-682 | Every tick, whether or not it reaches a due month, keeps the state valid. |
| Session.DayTickWithoutMonth | App.tsx:142-252 | A tick whose render does not find the month due is the day alone, and stays valid. |
| Session.DayTickSettles | App.tsx:251-682 | A running tick that finds the month due gives the daily step's player with the pre-day settlement applied. It shows the report and stops the clock exactly when the new cash is not negative, and marks the month processed. |
| Session.DayTickSpec | App.tsx:162-682 | Such a tick stays valid. Cash, satisfaction and on-time performance are the pre-day settlement's, so research completed that day loses its cash and satisfaction change. Its modifiers, service quality and completed entry, and the campaign expiry, survive. One report is appended and the month cannot run again. |
| Session.MonthlyTickValid | App.tsx:251-682 | Every monthly step, due or not, keeps the state valid. |
| Session.ReportPauseRoundTrip | App.tsx:673-680 | Closing the month's report gives the clock back the speed it had before the report. |
| Session.PauseResume | App.tsx:685-694 | Pausing after choosing a speed stops the clock, and resuming returns to that speed. |
| Session.PurchaseKeepsValid | App.tsx:837-861 | A purchase keeps the session valid. |
| Session.SaleKeepsValid | App.tsx:863-900 | A sale keeps the session valid. |
| Session.OpenRouteKeepsValid | App.tsx:940-981 | Opening a route with a fresh id keeps the session valid. |
| Session.AssignKeepsValid | App.tsx:1007-1044 | Assigning an idle aircraft keeps the session valid. |
| Session.UnassignKeepsValid | App.tsx:1046-1077 | Unassigning keeps the session valid. |
| Session.PriceAndHubKeepValid | App.tsx:1079-1128 | A positive price change, and any hub choice, keep the session valid. |
| Session.GameSession.constructor | App.tsx:696-751 | The object starts as the new game, in a valid state. |
| Session.GameSession.AdvanceDay | App.tsx:142-682 | The object takes one tick as committed: the day, and when due the monthly effect from the values of the pre-day render, staying valid. |
| Session.GameSession.SettleAfterDay | App.tsx:251-682 | The state becomes the monthly effect of the given pre-day render applied to the current state. |
| Session.GameSession.RunDay | App.tsx:142-236 | The date moves on and the daily effect runs; a paused or finished game does not move. |
| Session.GameSession.CheckGameOver | App.tsx:240-248 | The game is over exactly when it was, or when cash went negative while playing. |
| Session.GameSession.MonthlyTick | App.tsx:251-682 | The object takes the monthly effect of a render that does not move the date, from the state at its start, staying valid. |
| Session.GameSession.RunAiStep | App.tsx:260-411 | The competitors and alliances become those after the AI turn. |
| Session.GameSession.RunEventStep | App.tsx:414-444 | The events, history, player and notice become those after the event step. |
| Session.GameSession.ApplyMonthSettlement | App.tsx:659-681 | The settlement lands on the player, the report pauses the clock when cash is not negative, and the month is marked. |
| Session.GameSession.SetSpeed | App.tsx:685-690 | The speed is set and a positive one is remembered, staying valid. |
| Session.GameSession.TogglePause | App.tsx:692-694 | A running clock stops; a stopped one resumes at the remembered speed. |
| Session.GameSession.CloseReport | App.tsx:998-1001 | The report closes and the clock takes back its earlier speed. |
| Session.GameSession.CloseEvent | App.tsx:1003-1005 | The event notice closes and nothing else changes. |
| Session.GameSession.Purchase | App.tsx:837-861 | The player becomes the purchase's result, staying valid. |
| Session.GameSession.Sell | App.tsx:863-900 | The player becomes the sale's result, staying valid. |
| Session.GameSession.OpenRoute | App.tsx:940-981 | The player becomes the route creation's result, staying valid. |
| Session.GameSession.Assign | App.tsx:1007-1044 | The fleet and routes are copied and updated at indices as the assignment specifies, staying valid. |
| Session.GameSession.Unassign | App.tsx:1046-1077 | The fleet and routes are copied and updated at indices as the unassignment specifies, staying valid. |
| Session.GameSession.ChangeTicketPrice | App.tsx:1079-1095 | The player becomes the price update's result, staying valid. |
| Session.GameSession.ChooseHub | App.tsx:1122-1128 | The player's hub becomes the airport, staying valid. |
| Session.GameSession.BeginResearch | App.tsx:1130-1145 | The player becomes the research start's result, staying valid. |
| Session.GameSession.BeginCampaign | App.tsx:1147-1175 | The player becomes the campaign start's result, staying valid. |
| Session.GameSession.CreateAlliance | App.tsx:1177-1196 | The player, alliances and competitors become the formation's result, staying valid. |
| Session.GameSession.InviteCompetitor | App.tsx:1198-1218 | The player, alliances and competitors become the invitation's result, staying valid. |
| Session.GameSession.LeaveAlliance | App.tsx:1220-1249 | The player, alliances and competitors become the departure's result, staying valid. |
| Rankings.AllAirlines | components/RankingsModal.tsx:44-65 | The player comes first, with its own figures, then each competitor in order, with the AI baselines of 75 satisfaction and 50 awareness. |
| Rankings.Insert | components/RankingsModal.tsx:70-74 | Insertion adds exactly one element. |
| Rankings.SortBy | components/RankingsModal.tsx:70-74 | Sorting keeps the length; specified by SortByPermutation, SortBySorted and SortByStable. |
| Rankings.InsertPermutation | components/RankingsModal.tsx:70 | Insertion adds exactly that element to the multiset. |
| Rankings.SortByPermutation | components/RankingsModal.tsx:70-74 | The sort only reorders: the result is a permutation of its input. |
| Rankings.InsertSorted | components/RankingsModal.tsx:70-74 | Inserting into a sorted list keeps it sorted. |
| Rankings.SortBySorted | components/RankingsModal.tsx:70-74 | With a comparator that orders every pair consistently, the result is sorted. |
| Rankings.InsertKeepsTies | components/RankingsModal.tsx:70-74 | Inserting an element keeps any group of mutually tied elements in order, with the new one behind them. |
| Rankings.SortByStable | components/RankingsModal.tsx:70-74 | The sort is stable: every group of mutually tied elements comes out in the order it went in. |
| Rankings.MetricOrderTotal | components/RankingsModal.tsx:73 | Each metric's comparator orders every pair consistently. |
| Rankings.MetricTiesKeepOrder | components/RankingsModal.tsx:44-76 | Airlines with equal values of a metric keep their list order in its ranking, so the AI airlines' fixed baselines rank them in competitor order. |
| Rankings.GetRanks | components/RankingsModal.tsx:69-78 | The loop records each airline's position in the sorted copy plus one. |
| Rankings.RankMapKeys | components/RankingsModal.tsx:75-76 | Exactly the ids of the list are ranked. |
| Rankings.RankMapPositions | components/RankingsModal.tsx:75-76 | With distinct ids each airline's rank is its position plus one. |
| Rankings.InsertDistinct | components/RankingsModal.tsx:70 | Inserting a new id keeps the ids distinct. |
| Rankings.SortDistinct | components/RankingsModal.tsx:70 | Sorting keeps ids distinct and keeps the same ids. |
| Rankings.RankMapBijection | components/RankingsModal.tsx:75-76 | With distinct ids the rank map is a bijection onto 1..n. |
| Rankings.SortMembers | components/RankingsModal.tsx:70 | A sorted copy has the same members. |
| Rankings.RanksBijection | components/RankingsModal.tsx:69-78 | With distinct ids the ranks are a bijection between the airlines and 1..n. |
| Rankings.Ranks | components/RankingsModal.tsx:69-78 | getRanks; specified by Rankings.GetRanks, RanksBijection and LargerValueBetterRank. |
| Rankings.RankFollowsOrder | components/RankingsModal.tsx:69-78 | In a sorted list with distinct ids, an airline that cannot come after another has the smaller rank. |
| Rankings.LargerValueBetterRank | components/RankingsModal.tsx:69-84 | A strictly larger value on a metric gets a strictly better (smaller) rank. |
| Rankings.WithScores | components/RankingsModal.tsx:86-105 | Every airline gets a score row. |
| Rankings.Numbered | components/RankingsModal.tsx:109 | Numbering keeps every row. |
| Rankings.RankAirlines | components/RankingsModal.tsx:43-110 | The loops build the ranked table. |
| Rankings.RankInRange | components/RankingsModal.tsx:87-91 | An airline's rank on one metric is in 1..n. |
| Rankings.ScoreBounds | components/RankingsModal.tsx:94 | The overall score is five ranks in 1..n, so it lies in [5, 5n]. |
| Rankings.RankedAirlinesOrdered | components/RankingsModal.tsx:107-109 | The table is numbered 1..n in order of non-decreasing overall score. |
| Rankings.RankedScoreBounds | components/RankingsModal.tsx:86-109 | With distinct ids every overall score in the table lies in [5, 5n]. |
| Rankings.RankedAirlines | components/RankingsModal.tsx:43-110 | The ranked table; specified by Rankings.RankAirlines, RankedAirlinesOrdered and RankedScoreBounds. |
| Rankings.SortedAirlinesPermutation | components/RankingsModal.tsx:113-128 | The displayed table holds exactly the ranked rows, and on a numeric column it is ordered in the chosen direction. |
| Rankings.SortedAirlines | components/RankingsModal.tsx:113-128 | The displayed order; specified by Rankings.SortedAirlinesPermutation. |
| Rankings.RequestSort | components/RankingsModal.tsx:130-136 | The clicked column becomes the key. The order is descending exactly when that column was already ascending. |
| Rankings.RequestSortToggles | components/RankingsModal.tsx:130-136 | Clicking the same column again flips the direction. |
| ResearchPanel.ResearchPartition | components/ResearchAndDevelopment.tsx:84-96 | Available means neither done nor active with every prerequisite met; locked means some prerequisite is missing. Every open project is in exactly one of the two, and none is also completed. |
| ResearchPanel.AvailableProjects | components/ResearchAndDevelopment.tsx:84-88 | The available projects; specified by ResearchPanel.ResearchPartition. |
| ResearchPanel.LockedProjects | components/ResearchAndDevelopment.tsx:90-94 | The locked projects; specified by ResearchPanel.ResearchPartition. |
| ResearchPanel.CompletedProjects | components/ResearchAndDevelopment.tsx:96 | The completed projects; specified by ResearchPanel.ResearchPartition. |
| ResearchPanel.ActiveNotOffered | components/ResearchAndDevelopment.tsx:84-94 | The running project is neither available nor locked. |
| ResearchPanel.ButtonDisabled | components/ResearchAndDevelopment.tsx:30-31 | The button is enabled exactly on an available card, with cash covering the cost and no research running. |
| ResearchPanel.Label | components/ResearchAndDevelopment.tsx:33-36 | The label follows its priorities: locked, then research running, then missing funds. |
| ResearchPanel.LabelMatchesButton | components/ResearchAndDevelopment.tsx:30-36 | On an available card the label invites a start exactly when the button is enabled. |
| ResearchPanel.EnabledButtonStarts | components/ResearchAndDevelopment.tsx:119-128 | An enabled button starts the project: the cost is paid and the project runs. |
| ResearchPanel.Progress | components/ResearchAndDevelopment.tsx:109 | The bar never exceeds 100 and is not negative after the start. |
| ResearchPanel.RemainingDays | components/ResearchAndDevelopment.tsx:110 | The days left are never negative. |
| ResearchPanel.ProgressMatchesCompletion | components/ResearchAndDevelopment.tsx:109-110 | The bar is full exactly when no day remains, which is exactly when the daily step completes the research. |
| FleetPanel.AgeAsWritten | components/FleetManagement.tsx:26-36 | The age label as written: the months shown lie in 0..11. |
| FleetPanel.AgeAsWrittenGoesBackwards | components/FleetManagement.tsx:26-36 | The label as written shows 0y11m on 20 February 2025 and 0y0m on 10 March 2025 for an aircraft bought on 15 March 2024. |
| FleetPanel.CalculateAge | components/FleetManagement.tsx:26-36 | The corrected label counts exactly the whole months elapsed, with months in 0..11. |
| FleetPanel.AgeMonotone | components/FleetManagement.tsx:26-36 | The corrected age is never negative from the purchase on and never goes backwards. |
| FleetPanel.AgeAgreesOnLaterDay | components/FleetManagement.tsx:26-36 | Both labels agree whenever the day of the month has been reached. |
| FleetPanel.CardSalePriceBounds | components/FleetManagement.tsx:74-78 | The card's price lies between a fifth of the model price (rounded) and the model price, and never rises later. |
| FleetPanel.CardSalePrice | components/FleetManagement.tsx:74-78 | The card's sale price; specified by FleetPanel.CardSalePriceBounds and SellButtonMatchesSale. |
| FleetPanel.SellButtonMatchesSale | components/FleetManagement.tsx:110-117 | An enabled sell button sells the aircraft for the card's price; a disabled one changes nothing. |
| FleetPanel.FleetPage | components/FleetManagement.tsx:139-159 | A page holds at most four aircraft of the fleet, each of a known model. |
| FleetPanel.EveryAircraftListed | components/FleetManagement.tsx:131-142 | Every aircraft of a known model is on one of the pages offered. |
| Paging.TotalPages | components/FleetManagement.tsx:131 | The fewest pages that hold every item; none exactly for an empty list. |
| Paging.ClampPage | components/FleetManagement.tsx:133-137 | A page past the last falls back to the last one, unless there are no pages. |
| Paging.ClampPageSettles | components/RouteManagement.tsx:329-333 | The clamp is idempotent and lands on a page in 1..total. |
| Paging.PageItems | components/FleetManagement.tsx:139-142 | A page holds at most perPage items: the consecutive items starting at its offset. |
| Paging.PagesCoverList | components/RouteManagement.tsx:335-338 | Item i is on page i / perPage + 1 at position i mod perPage, and that page is counted. |
| Paging.PreviousPage | components/Pagination.tsx:14-16 | Previous goes back one page, never below 1. |
| Paging.NextPage | components/Pagination.tsx:18-20 | Next goes forward one page, never past the last. |
| Paging.NavigationStaysInRange | components/Pagination.tsx:10-38 | From a page in range both buttons stay in range; an enabled button moves one page and a disabled one stays. |
| AssignmentModal.AvailableAircraft | components/AircraftAssignmentModal.tsx:29-38 | Exactly the idle aircraft of a known model whose range covers the route. |
| AssignmentModal.AvailableCountsMatchFleet | components/AircraftAssignmentModal.tsx:29-38 | The list takes nothing the fleet lacks, and lists each eligible aircraft as often as the fleet holds it. |
| AssignmentModal.Selection | components/AircraftAssignmentModal.tsx:27 | The selection is the last aircraft clicked, none before any click. |
| AssignmentModal.HandleAssign | components/AircraftAssignmentModal.tsx:40-44 | A request is sent exactly when the button is enabled, naming the dialog's route and the selection. |
| AssignmentModal.RequestNamesListedAircraft | components/AircraftAssignmentModal.tsx:40-70 | A request names the dialog's route and an aircraft that can fly it. |
| AssignmentModal.RequestKeepsConsistent | components/AircraftAssignmentModal.tsx:40-44 | Assigning a listed aircraft keeps consistency and puts it in service on the route. |
| HubModal.EndpointsMembership | components/HubSelectionModal.tsx:22-28 | An airport is collected exactly when a route starts or ends there. |
| HubModal.OperatingAirportIds | components/HubSelectionModal.tsx:23-28 | The loop collects exactly the route endpoints. |
| HubModal.ComputeEligibleAirports | components/HubSelectionModal.tsx:22-30 | The eligible airports are the catalog airports some route starts or ends at, in catalog order. |
| HubModal.EligibleIffServed | components/HubSelectionModal.tsx:22-30 | An airport is offered exactly when it is in the catalog and served by a player route. |
| HubModal.EligibleAirports | components/HubSelectionModal.tsx:22-30 | The hub candidates; specified by HubModal.EligibleIffServed and ComputeEligibleAirports. |
| HubModal.Selection | components/HubSelectionModal.tsx:20 | The selection starts at the current hub and becomes the last airport clicked. |
| HubModal.HandleSetHub | components/HubSelectionModal.tsx:32-36 | A truthy selection becomes the hub; otherwise nothing changes. |
| HubModal.ConfirmMovesHubToServedAirport | components/HubSelectionModal.tsx:32-96 | Confirm starts disabled; an enabled confirm moves the hub to a different airport the player's routes serve. |
| MarketingPanel.AvailableCampaigns | components/Marketing.tsx:94-96 | Exactly the catalog campaigns not running. |
| MarketingPanel.ButtonDisabled | components/Marketing.tsx:30-31 | The button is enabled exactly when the campaign is not running, the cash covers it and no other campaign runs. |
| MarketingPanel.Label | components/Marketing.tsx:33-35 | Another running campaign outranks missing funds; otherwise the label invites a start. |
| MarketingPanel.OfferedButton | components/Marketing.tsx:73-96 | On an offered card the label invites a start exactly when the button is enabled: no campaign runs and the cash covers it. |
| MarketingPanel.EnabledButtonStarts | components/Marketing.tsx:30-31 | An enabled button starts the campaign: the cost is paid and it is the only one running. |
| MarketingPanel.EffectDescription | components/Marketing.tsx:37-46 | Awareness is described first, then the regional gain, whose percentage is positive exactly for a multiplier above 1; otherwise a generic text. |
| MarketingPanel.Progress | components/Marketing.tsx:105 | The bar never exceeds 100 and is not negative after the start. |
| MarketingPanel.RemainingDays | components/Marketing.tsx:106 | The days left are never negative. |
| MarketingPanel.ProgressMatchesExpiry | components/Marketing.tsx:105-106 | The bar is full exactly when no day remains, which is exactly when the daily expiry drops the campaign. |
| AlliancePanel.PlayerAlliance | components/AllianceManagement.tsx:31 | The listed alliance with the player's id, none without an id. |
| AlliancePanel.AlliancesSplit | components/AllianceManagement.tsx:31-32 | Other alliances are exactly those whose id is not the player's; the player's own is never among them. |
| AlliancePanel.TrimStart | components/AllianceManagement.tsx:36 | Removes exactly the leading white space. |
| AlliancePanel.TrimEnd | components/AllianceManagement.tsx:36 | Removes exactly the trailing white space. |
| AlliancePanel.Trim | components/AllianceManagement.tsx:36 | The result starts and ends with non-space and is empty exactly for an all-space text. |
| AlliancePanel.HandleFormAlliance | components/AllianceManagement.tsx:35-40 | The trimmed name is sent and the input cleared exactly when the form is enabled; otherwise the input is kept. |
| AlliancePanel.FormRequestFormsAlliance | components/AllianceManagement.tsx:35-67 | A request forms the alliance under the trimmed name for a player without an alliance; the command refuses it otherwise. |
| AlliancePanel.EligibleForInvite | components/AllianceManagement.tsx:42 | Exactly the competitors with no (or an empty) alliance id. |
| AlliancePanel.InviteAlignsCompetitor | components/AllianceManagement.tsx:104 | Inviting a listed competitor gives it the player's alliance id and leaves the others alone. |
| RouteCard.CardShown | components/CompactRouteCard.tsx:31-36 | The card draws exactly when both endpoints are in the catalog. |
| RouteCard.AssignedAircraft | components/CompactRouteCard.tsx:38 | The aircraft shown is in the fleet and is the one the route names by a non-zero id. |
| RouteCard.AssignedStatus | components/CompactRouteCard.tsx:38 | In a consistent state a route with an aircraft shows it, in service on that route; a route without one shows none. |
| RouteCard.CardIsHub | components/CompactRouteCard.tsx:40 | The hub badge shows exactly for a non-empty hub that is an endpoint. |
| RouteCard.HasCompetition | components/CompactRouteCard.tsx:55-59 | The competition badge test; specified by RouteCard.BadgesExclusive. |
| RouteCard.BadgesExclusive | components/CompactRouteCard.tsx:39-59 | Closed and competition badges never both show, nor hub and competition. The competition badge shows exactly on a route over 1000 km with neither the closed nor the hub badge. The alliance badge shows exactly for a listed alliance with another member. |

## Left out

- Randomness: every `Math.random()` draw is a parameter, so the model states what happens for every outcome but not the probabilities.
- Generated ids: ids made from the clock (aircraft, routes, alliances, events) are parameters. Commands that add an entity require the id to be fresh.
- Aircraft ids: the game makes them from the clock plus a random fraction, so they are never 0. The model uses integers and treats a route's aircraft id as present exactly when it is set. Only the route card and the assignment dialog test it for 0 explicitly.
- Calendar arithmetic: dates are day numbers. The month index, the length of the settled month and the report's date are inputs of the monthly step. The interval timer is the `AdvanceDay` method, one call per tick. It takes the inputs of a monthly step on every tick, used only when the render finds the month due.
- Distance: the great-circle distance between airports is a parameter, not computed.
- Persistence, React rendering, toasts, the map, the country panel and the help, setup and game-over screens: not modelled.
- Floating point: amounts are exact reals. Rounding differences of IEEE doubles, and the infinities of a division by zero, are not modelled. The one exception is the price-satisfaction term, which covers a zero standard fare explicitly.
- Settlement.PricedRoutes: a route with a positive distance must have a non-zero ticket price, so the fare division is defined. The session keeps every price positive.
- Session.GameSession.Assign: requires the chosen aircraft to be idle. The dialog offers only idle aircraft; the handler itself does not check.
- Session.GameSession.OpenRoute: requires a fresh id and a distance of at least 5/3, so the rounded standard fare is a positive price.
- Session.GameSession.ChangeTicketPrice: requires a positive price. The price inputs forward only positive whole numbers.
- ResearchPanel.Progress: requires a positive duration, which every catalog project has; a zero duration would divide by zero.
- MarketingPanel.Progress: requires a positive duration, for the same reason.
- Lifecycle.MonthlyEvents: requires a non-empty event catalog, which the game ships.
- RouteEstimator.RouteEstimate: requires every catalog model to have seats (`ModelsHaveSeats`), since the load factor divides by them.
- Rankings.SortedAirlinesPermutation: names are compared by a locale comparison passed as a parameter. Only numeric columns are proved ordered.
- Rankings.SortBy: the engine's stable sort is modelled by an insertion sort whose stability is proved. Its behaviour with an inconsistent comparator is not modelled.
- AssignmentModal.AvailableAircraft: states which aircraft are listed and how often, not that they keep the fleet's order.
- Number formatting (`toFixed`, `toLocaleString`) and every display string: not modelled. Labels are datatypes.
- AlliancePanel.Trim: removes the ASCII white-space characters only, not the other Unicode spaces that `String.prototype.trim` removes.
- RouteEstimator.ModalShows: the route detail modal computes its estimate before its render guard. The model computes the estimate only for a route that is present. The route card and the modal also read an endpoint airport's region without checking that the airport is in the catalog, so a missing airport on a route with an aircraft would raise a TypeError. The model takes both airports as given, which play guarantees because CreateRoute refuses unknown airports.
- Settlement.RouteSettlement: the fuel bill multiplies the same factors in a different order. Over the reals this is the same amount; the floating-point difference is not modelled.

## Findings

| source | as written | input that shows it | evidently intended | confidence | as-written member | corrected member |
|---|---|---|---|---|---|---|
| components/FleetManagement.tsx:26-36 | When the month difference is zero and the day of the month is earlier, one year is borrowed and the months are taken modulo 12, giving 0 months. | Bought 15 March 2024: on 20 February 2025 the card shows 0 years 11 months; on 10 March 2025 it shows 0 years 0 months. | The age counts whole months elapsed, so it never goes backwards: 0 years 11 months on 10 March 2025. | not executed | FleetPanel.AgeAsWrittenGoesBackwards | FleetPanel.AgeMonotone |
