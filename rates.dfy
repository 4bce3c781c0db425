/** The daily rate table: vans ("carrinha") and every other category,
    on weekend days and on weekdays. Amounts are in euro cents. */
module Rates {
  import opened Calendar

  /** The category name that selects the van rates. */
  const Van: string := "carrinha"

  const VanWeekendRate: nat := 2000
  const VanWeekdayRate: nat := 1200
  const CarWeekendRate: nat := 1500
  const CarWeekdayRate: nat := 600

  /** The smallest and the largest rate of the table. */
  const MinRate: nat := CarWeekdayRate
  const MaxRate: nat := VanWeekendRate

  /** The price of renting a vehicle of `category` on day `d`. Any category
      other than "carrinha" is charged at the car rates. */
  function DailyRate(category: string, d: Day): (r: nat)
    ensures MinRate <= r <= MaxRate
    ensures r % 100 == 0
  {
    var weekend := IsWeekend(d);
    if category == Van then
      (if weekend then VanWeekendRate else VanWeekdayRate)
    else
      (if weekend then CarWeekendRate else CarWeekdayRate)
  }

  /** The four entries of the table. */
  lemma DailyRateTable(category: string, d: Day)
    ensures category == Van && IsWeekend(d) ==> DailyRate(category, d) == 2000
    ensures category == Van && !IsWeekend(d) ==> DailyRate(category, d) == 1200
    ensures category != Van && IsWeekend(d) ==> DailyRate(category, d) == 1500
    ensures category != Van && !IsWeekend(d) ==> DailyRate(category, d) == 600
  {
  }

  /** The rate depends on the day only through whether it is a weekend day. */
  lemma RateDependsOnDayKind(category: string, d: Day, e: Day)
    requires IsWeekend(d) == IsWeekend(e)
    ensures DailyRate(category, d) == DailyRate(category, e)
  {
  }

  /** For one category, a weekend day always costs more than a weekday,
      and on any day a van costs more than any other category. */
  lemma RateOrdering(category: string, weekend: Day, weekday: Day, d: Day)
    requires IsWeekend(weekend) && !IsWeekend(weekday)
    ensures DailyRate(category, weekday) < DailyRate(category, weekend)
    ensures category != Van ==> DailyRate(category, d) < DailyRate(Van, d)
  {
  }

  /** The rates of a category: the least and the greatest it can charge. */
  function CategoryMinRate(category: string): nat {
    if category == Van then VanWeekdayRate else CarWeekdayRate
  }

  function CategoryMaxRate(category: string): nat {
    if category == Van then VanWeekendRate else CarWeekendRate
  }

  lemma DailyRateWithinCategory(category: string, d: Day)
    ensures CategoryMinRate(category) <= DailyRate(category, d) <= CategoryMaxRate(category)
  {
  }
}
