/** The fleet screen (components/FleetManagement.tsx): the age shown on each
  * aircraft card, the sale price and sell button, and the pages of four
  * cards. */
module FleetPanel {
  import opened Common
  import opened Model
  import Commands
  import Paging

  const FleetPerPage: nat := 4

  // ---------------------------------------------------------------------
  // The age label

  /** A calendar date as Date.getFullYear / getMonth (0 = January) /
    * getDate report it. */
  datatype CalendarDate = CalendarDate(year: int, month: int, day: int)

  predicate ValidDate(d: CalendarDate) { 0 <= d.month <= 11 && 1 <= d.day <= 31 }

  /** Chronological order of calendar dates. */
  predicate NotAfter(a: CalendarDate, b: CalendarDate) {
    a.year < b.year || (a.year == b.year && (a.month < b.month || (a.month == b.month && a.day <= b.day)))
  }

  datatype Age = Age(years: int, months: int)

  function TotalMonths(a: Age): int { a.years * 12 + a.months }

  /** calculateAge as written: year and month differences; when the month
    * difference is negative, or zero with an earlier day of the month, one
    * year is borrowed and the months are taken modulo 12. */
  function AgeAsWritten(purchase: CalendarDate, current: CalendarDate): (r: Age)
    requires ValidDate(purchase) && ValidDate(current)
    ensures 0 <= r.months <= 11
  {
    var years := current.year - purchase.year;
    var months := current.month - purchase.month;
    if months < 0 || (months == 0 && current.day < purchase.day) then
      Age(years - 1, (months + 12) % 12)
    else
      Age(years, months)
  }

  /** The age as written goes backwards: an aircraft bought on 15 March 2024
    * is shown as 0 years 11 months on 20 February 2025 and as 0 years 0
    * months on 10 March 2025. */
  lemma AgeAsWrittenGoesBackwards()
    ensures var bought := CalendarDate(2024, 2, 15);
            var earlier := CalendarDate(2025, 1, 20);
            var later := CalendarDate(2025, 2, 10);
            NotAfter(earlier, later) &&
            AgeAsWritten(bought, earlier) == Age(0, 11) &&
            AgeAsWritten(bought, later) == Age(0, 0) &&
            TotalMonths(AgeAsWritten(bought, later)) < TotalMonths(AgeAsWritten(bought, earlier))
  {
  }

  /** Whole months from the purchase date to the current date: a month counts
    * once its day of the month has been reached. */
  function MonthsBetween(purchase: CalendarDate, current: CalendarDate): int {
    (current.year - purchase.year) * 12 + (current.month - purchase.month)
      - (if current.day < purchase.day then 1 else 0)
  }

  /** The age in whole years and months, with a month counted only once its
    * day has been reached. */
  function CalculateAge(purchase: CalendarDate, current: CalendarDate): (r: Age)
    requires ValidDate(purchase) && ValidDate(current)
    ensures 0 <= r.months <= 11
    ensures TotalMonths(r) == MonthsBetween(purchase, current)
  {
    var total := MonthsBetween(purchase, current);
    Age(total / 12, total % 12)
  }

  /** The age is never negative from the purchase date on and never goes
    * backwards as the date advances. */
  lemma AgeMonotone(purchase: CalendarDate, earlier: CalendarDate, later: CalendarDate)
    requires ValidDate(purchase) && ValidDate(earlier) && ValidDate(later)
    requires NotAfter(purchase, earlier) && NotAfter(earlier, later)
    ensures 0 <= TotalMonths(CalculateAge(purchase, earlier)) <= TotalMonths(CalculateAge(purchase, later))
    ensures CalculateAge(purchase, earlier).years >= 0
  {
  }

  /** The two agree whenever the day-of-month correction is not needed. */
  lemma AgeAgreesOnLaterDay(purchase: CalendarDate, current: CalendarDate)
    requires ValidDate(purchase) && ValidDate(current) && NotAfter(purchase, current)
    requires current.day >= purchase.day
    ensures AgeAsWritten(purchase, current) == CalculateAge(purchase, current)
  {
  }

  // ---------------------------------------------------------------------
  // The sell button

  /** The sell button is disabled exactly for aircraft in service. */
  predicate SellDisabled(a: AircraftInstance) { a.status == InService }

  /** The price on a card: the model price depreciated by the age in years,
    * as the sale itself computes it. */
  function CardSalePrice(a: AircraftInstance, m: AircraftModel, today: int): int {
    Commands.SalePrice(m.price, AgeInYears(today, a.purchaseDay))
  }

  /** From the purchase day on, the card price lies between a fifth of the
    * model price (rounded) and the model price, and it never rises later. */
  lemma CardSalePriceBounds(a: AircraftInstance, m: AircraftModel, today: int, later: int)
    requires m.price >= 0 && a.purchaseDay <= today <= later
    ensures Round(0.2 * m.price as real) <= CardSalePrice(a, m, today) <= m.price
    ensures CardSalePrice(a, m, later) <= CardSalePrice(a, m, today)
  {
    var age, older := AgeInYears(today, a.purchaseDay), AgeInYears(later, a.purchaseDay);
    DivAntitoneNumerator((today - a.purchaseDay) as real, (later - a.purchaseDay) as real, 365.25);
    Commands.SalePriceBounds(m.price, age, older);
  }

  /** With unique ids, clicking an enabled sell button sells that aircraft for
    * the price on its card; on an aircraft in service the sale is refused and
    * nothing changes. */
  lemma SellButtonMatchesSale(p: Player, a: AircraftInstance, m: AircraftModel,
                              models: seq<AircraftModel>, today: int)
    requires UniqueAircraftIds(p.fleet) && a in p.fleet && ModelOf(models, a) == Some(m)
    ensures !SellDisabled(a) ==>
              var q := Commands.SellAircraft(p, a.id, models, today);
              q.cash == p.cash + CardSalePrice(a, m, today) as real && a !in q.fleet
    ensures SellDisabled(a) ==> Commands.SellAircraft(p, a.id, models, today) == p
  {
    var i :| 0 <= i < |p.fleet| && p.fleet[i] == a;
    var found := FindAircraft(p.fleet, a.id);
    assert found == Some(a) by {
      var j := FindIndex(p.fleet, (b: AircraftInstance) => b.id == a.id);
      assert j.Some? && j.value <= i;
    }
  }

  // ---------------------------------------------------------------------
  // Pages of cards

  /** The cards on a page: the page's slice of the fleet, skipping aircraft
    * whose model the catalog does not have. */
  function FleetPage(fleet: seq<AircraftInstance>, models: seq<AircraftModel>, page: int): (r: seq<AircraftInstance>)
    requires page >= 1
    ensures |r| <= FleetPerPage
    ensures forall a :: a in r ==> a in fleet && ModelOf(models, a).Some?
  {
    Filter(Paging.PageItems(fleet, page, FleetPerPage), (a: AircraftInstance) => ModelOf(models, a).Some?)
  }

  /** After the page clamp every aircraft of a known model is on one of the
    * pages the control offers. */
  lemma EveryAircraftListed(fleet: seq<AircraftInstance>, models: seq<AircraftModel>, i: nat)
    requires i < |fleet| && ModelOf(models, fleet[i]).Some?
    ensures var page := i / FleetPerPage + 1;
            1 <= page <= Paging.TotalPages(|fleet|, FleetPerPage) && fleet[i] in FleetPage(fleet, models, page)
  {
    Paging.PagesCoverList(fleet, FleetPerPage, i);
    var page := i / FleetPerPage + 1;
    assert fleet[i] in Paging.PageItems(fleet, page, FleetPerPage);
  }
}
